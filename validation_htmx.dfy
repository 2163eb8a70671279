/** The htmx front end's request validators (`src/lib/validation.ts`). Unlike the shared
    schemas, its optional text fields are mostly `nullish` with a `null` default, so a
    missing description or assignee id comes out as `null`, and missing tag ids as `[]`. */
module HtmxValidation {
  import opened Base
  import opened Valibot
  import Schemas

  datatype BoardOutput = BoardOutput(title: string, description: Field<string>)

  datatype CardOutput = CardOutput(title: string, description: Field<string>, assigneeId: string, tagIds: Field<seq<string>>)

  datatype CardCreateOutput = CardCreateOutput(
    boardId: string, title: string, description: Field<string>, assigneeId: Field<string>, tagIds: seq<string>)

  datatype CardUpdateOutput = CardUpdateOutput(
    cardId: string, title: string, description: Field<string>, assigneeId: Field<string>, tagIds: seq<string>)

  datatype CommentOutput = CommentOutput(cardId: string, userId: string, text: string)

  /** `v.pipe(v.string(message), v.minLength(1, message))`: a non-empty string, with the
      same message whether the value is missing, not a string or empty. */
  function RequiredText(v: Option<Json>, message: string): (r: Result<string, seq<Issue>>)
    ensures r.Ok? <==> Schemas.NonEmpty(v)
    ensures r.Ok? ==> r.value == Text(v)
    ensures r.Err? ==> r.error == [Custom(message)]
  {
    StrPipe(v, Some(message), 1, message, None, "")
  }

  /** The create schema's title pipe, whose messages name the card. */
  function CardTitleField(v: Option<Json>): (r: Result<string, seq<Issue>>)
    ensures r.Ok? <==> Schemas.TitleOk(v)
    ensures r.Ok? ==> r.value == Text(v)
    ensures !IsStr(v) ==> r == Err([Custom("Card title is required")])
    ensures IsStr(v) && v.value.s == "" ==> r == Err([Custom("Card title cannot be empty")])
    ensures IsStr(v) && Utf16Length(v.value.s) > 255 ==> r == Err([Custom("Card title must be less than 255 characters")])
  {
    StrPipe(v, Some("Card title is required"), 1, "Card title cannot be empty", Some(255),
            "Card title must be less than 255 characters")
  }

  /** The create schema's description pipe. */
  function CardCreateDescriptionField(v: Option<Json>): (r: Result<string, seq<Issue>>)
    ensures r.Ok? <==> Schemas.AtMost(v, 2000)
    ensures r.Ok? ==> r.value == Text(v)
    ensures IsStr(v) && Utf16Length(v.value.s) > 2000 ==>
      r == Err([Custom("Card description must be less than 2000 characters")])
  {
    StrPipe(v, None, 0, "", Some(2000), "Card description must be less than 2000 characters")
  }

  /** The tag ids of `v.optional(v.array(v.string()), () => [])` once passed. */
  function TagIdsOrEmpty(v: Option<Json>): (r: Result<seq<string>, seq<Issue>>)
    ensures v.None? ==> r == Ok([])
    ensures v.Some? ==> r == StrArray(v)
  {
    OptionalDefault(v, JArr([]), StrArray)
  }

  /** `BoardSchema`: a title and a nullish description of at most 500 units. */
  function BoardSchema(input: Json): (r: Result<BoardOutput, seq<Issue>>)
    ensures !ObjectLike(input) ==> r == Err(NotAnObject)
    ensures r.Ok? <==>
      ObjectLike(input) && Schemas.TitleOk(Get(input, "title"))
      && (Get(input, "description").None? || Get(input, "description") == Some(JNull)
          || Schemas.AtMost(Get(input, "description"), 500))
    ensures r.Ok? ==>
      r.value == BoardOutput(Text(Get(input, "title")), Schemas.NullishText(Get(input, "description")))
  {
    if !ObjectLike(input) then Err(NotAnObject)
    else
      var title := Schemas.TitleField(Get(input, "title"));
      var description := Nullish(Get(input, "description"), Schemas.BoardDescriptionField);
      if title.Ok? && description.Ok? then Ok(BoardOutput(title.value, description.value))
      else Err(IssuesOf(title) + IssuesOf(description))
  }

  /** The board schema accepts everything the shared one does, and `null` descriptions as
      well; where both accept, they agree except that a missing description is `null` here. */
  lemma BoardSchemaWidensShared(input: Json)
    ensures Schemas.BoardSchema(input).Ok? ==> BoardSchema(input).Ok?
    ensures BoardSchema(input).Ok? && Get(input, "description") != Some(JNull) ==> Schemas.BoardSchema(input).Ok?
    ensures Schemas.BoardSchema(input).Ok? ==>
      BoardSchema(input).value.title == Schemas.BoardSchema(input).value.title
      && (Get(input, "description").Some? ==>
            BoardSchema(input).value.description == Schemas.BoardSchema(input).value.description)
      && (Get(input, "description").None? ==> BoardSchema(input).value.description == Null)
  {
  }

  /** `CardSchema`: a title, an optional description of at most 2000 units, a required
      non-empty assignee id and optional tag ids. */
  function CardSchema(input: Json): (r: Result<CardOutput, seq<Issue>>)
    ensures !ObjectLike(input) ==> r == Err(NotAnObject)
    ensures r.Ok? <==>
      ObjectLike(input) && Schemas.TitleOk(Get(input, "title"))
      && (Get(input, "description").None? || Schemas.AtMost(Get(input, "description"), 2000))
      && Schemas.NonEmpty(Get(input, "assigneeId"))
      && (Get(input, "tagIds").None? || Schemas.IsStrArray(Get(input, "tagIds")))
    ensures r.Ok? ==>
      r.value == CardOutput(Text(Get(input, "title")), OptionalText(Get(input, "description")),
                            Text(Get(input, "assigneeId")), Schemas.OptionalStrings(Get(input, "tagIds")))
    ensures ObjectLike(input) && !Schemas.NonEmpty(Get(input, "assigneeId")) ==>
      r.Err? && Custom("Assignee is required") in r.error
  {
    if !ObjectLike(input) then Err(NotAnObject)
    else
      var title := Schemas.TitleField(Get(input, "title"));
      var description := Optional(Get(input, "description"), Schemas.CardDescriptionField);
      var assigneeId := RequiredText(Get(input, "assigneeId"), "Assignee is required");
      var tagIds := Optional(Get(input, "tagIds"), StrArray);
      if title.Ok? && description.Ok? && assigneeId.Ok? && tagIds.Ok? then
        Ok(CardOutput(title.value, description.value, assigneeId.value, tagIds.value))
      else Err(IssuesOf(title) + IssuesOf(description) + IssuesOf(assigneeId) + IssuesOf(tagIds))
  }

  /** The card schema is the shared one with the assignee id made required and non-empty. */
  lemma CardSchemaNarrowsShared(input: Json)
    ensures CardSchema(input).Ok? <==>
      Schemas.CardSchema(input).Ok? && Schemas.NonEmpty(Get(input, "assigneeId"))
    ensures CardSchema(input).Ok? ==>
      Schemas.CardSchema(input).value.assigneeId == Present(CardSchema(input).value.assigneeId)
  {
  }

  /** `CardCreateSchema`: a non-empty board id, a card title of 1 to 255 units, a nullish
      description of at most 2000 units, a nullish assignee id and tag ids defaulting to `[]`. */
  function CardCreateSchema(input: Json): (r: Result<CardCreateOutput, seq<Issue>>)
    ensures !ObjectLike(input) ==> r == Err(NotAnObject)
    ensures r.Ok? <==>
      ObjectLike(input) && Schemas.NonEmpty(Get(input, "boardId")) && Schemas.TitleOk(Get(input, "title"))
      && (Get(input, "description").None? || Get(input, "description") == Some(JNull)
          || Schemas.AtMost(Get(input, "description"), 2000))
      && (Get(input, "assigneeId").None? || Get(input, "assigneeId") == Some(JNull) || IsStr(Get(input, "assigneeId")))
      && (Get(input, "tagIds").None? || Schemas.IsStrArray(Get(input, "tagIds")))
    ensures r.Ok? ==>
      r.value == CardCreateOutput(Text(Get(input, "boardId")), Text(Get(input, "title")),
                                  Schemas.NullishText(Get(input, "description")),
                                  Schemas.NullishText(Get(input, "assigneeId")),
                                  Schemas.StringsOf(Get(input, "tagIds")))
  {
    if !ObjectLike(input) then Err(NotAnObject)
    else
      var boardId := RequiredText(Get(input, "boardId"), "Board ID is required");
      var title := CardTitleField(Get(input, "title"));
      var description := Nullish(Get(input, "description"), CardCreateDescriptionField);
      var assigneeId := Nullish(Get(input, "assigneeId"), Schemas.PlainString);
      var tagIds := TagIdsOrEmpty(Get(input, "tagIds"));
      if boardId.Ok? && title.Ok? && description.Ok? && assigneeId.Ok? && tagIds.Ok? then
        Ok(CardCreateOutput(boardId.value, title.value, description.value, assigneeId.value, tagIds.value))
      else Err(IssuesOf(boardId) + IssuesOf(title) + IssuesOf(description) + IssuesOf(assigneeId) + IssuesOf(tagIds))
  }

  /** A body with a board id and a title and without a description, an assignee or tags
      creates a card with no description, no assignee and no tags. */
  lemma CardCreateDefaults(input: Json, boardId: string, title: string)
    requires ObjectLike(input) && Get(input, "boardId") == Some(JStr(boardId)) && Get(input, "title") == Some(JStr(title))
    requires Get(input, "description").None? && Get(input, "assigneeId").None? && Get(input, "tagIds").None?
    requires boardId != "" && 1 <= Utf16Length(title) <= 255
    ensures CardCreateSchema(input) == Ok(CardCreateOutput(boardId, title, Null, Null, []))
  {
  }

  /** `CardUpdateSchema`: a card id, a title of 1 to 255 units, a nullish description of at
      most 2000 units, a nullish assignee id and tag ids defaulting to `[]`. */
  function CardUpdateSchema(input: Json): (r: Result<CardUpdateOutput, seq<Issue>>)
    ensures !ObjectLike(input) ==> r == Err(NotAnObject)
    ensures r.Ok? <==>
      ObjectLike(input) && IsStr(Get(input, "cardId")) && Schemas.TitleOk(Get(input, "title"))
      && (Get(input, "description").None? || Get(input, "description") == Some(JNull)
          || Schemas.AtMost(Get(input, "description"), 2000))
      && (Get(input, "assigneeId").None? || Get(input, "assigneeId") == Some(JNull) || IsStr(Get(input, "assigneeId")))
      && (Get(input, "tagIds").None? || Schemas.IsStrArray(Get(input, "tagIds")))
    ensures r.Ok? ==>
      r.value == CardUpdateOutput(Text(Get(input, "cardId")), Text(Get(input, "title")),
                                  Schemas.NullishText(Get(input, "description")),
                                  Schemas.NullishText(Get(input, "assigneeId")),
                                  Schemas.StringsOf(Get(input, "tagIds")))
  {
    if !ObjectLike(input) then Err(NotAnObject)
    else
      var cardId := Str(Get(input, "cardId"), Some("Card ID is required"));
      var title := Schemas.TitleField(Get(input, "title"));
      var description := Nullish(Get(input, "description"), Schemas.CardDescriptionField);
      var assigneeId := Nullish(Get(input, "assigneeId"), Schemas.PlainString);
      var tagIds := TagIdsOrEmpty(Get(input, "tagIds"));
      if cardId.Ok? && title.Ok? && description.Ok? && assigneeId.Ok? && tagIds.Ok? then
        Ok(CardUpdateOutput(cardId.value, title.value, description.value, assigneeId.value, tagIds.value))
      else Err(IssuesOf(cardId) + IssuesOf(title) + IssuesOf(description) + IssuesOf(assigneeId) + IssuesOf(tagIds))
  }

  /** `CommentSchema`: a card id, a non-empty user id and a text of 1 to 1000 units. */
  function CommentSchema(input: Json): (r: Result<CommentOutput, seq<Issue>>)
    ensures !ObjectLike(input) ==> r == Err(NotAnObject)
    ensures r.Ok? <==>
      ObjectLike(input) && IsStr(Get(input, "cardId")) && Schemas.NonEmpty(Get(input, "userId"))
      && Schemas.CommentTextOk(Get(input, "text"))
    ensures r.Ok? ==>
      r.value == CommentOutput(Text(Get(input, "cardId")), Text(Get(input, "userId")), Text(Get(input, "text")))
  {
    if !ObjectLike(input) then Err(NotAnObject)
    else
      var cardId := Str(Get(input, "cardId"), Some("Card ID is required"));
      var userId := RequiredText(Get(input, "userId"), "User is required");
      var text := Schemas.CommentTextField(Get(input, "text"));
      if cardId.Ok? && userId.Ok? && text.Ok? then Ok(CommentOutput(cardId.value, userId.value, text.value))
      else Err(IssuesOf(cardId) + IssuesOf(userId) + IssuesOf(text))
  }

  /** The comment schema is the shared one with the user id made non-empty. */
  lemma CommentSchemaNarrowsShared(input: Json)
    ensures CommentSchema(input).Ok? <==> Schemas.CommentSchema(input).Ok? && Schemas.NonEmpty(Get(input, "userId"))
  {
  }
}
