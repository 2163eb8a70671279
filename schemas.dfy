/** The field pipes and schemas the front ends' `validation.ts` files spell out identically:
    the title, description and comment-text pipes, and the board, card and comment schemas
    that several front ends share word for word. A schema is a function from the request
    body to its parsed output or to valibot's issues, one per failing field in the order
    the schema lists its fields. */
module Schemas {
  import opened Base
  import opened Valibot

  // ---------------------------------------------------------------------------------------
  // Field pipes

  /** A string of 1 to 255 UTF-16 units. */
  predicate TitleOk(v: Option<Json>) {
    IsStr(v) && 1 <= Utf16Length(v.value.s) <= 255
  }

  /** A string of at most `max` UTF-16 units. */
  predicate AtMost(v: Option<Json>, max: nat) {
    IsStr(v) && Utf16Length(v.value.s) <= max
  }

  /** A string of 1 to 1000 UTF-16 units. */
  predicate CommentTextOk(v: Option<Json>) {
    IsStr(v) && 1 <= Utf16Length(v.value.s) <= 1000
  }

  /** A non-empty string. */
  predicate NonEmpty(v: Option<Json>) {
    IsStr(v) && 1 <= Utf16Length(v.value.s)
  }

  /** An array of strings. */
  predicate IsStrArray(v: Option<Json>) {
    v.Some? && v.value.JArr? && AllStrings(v.value.items)
  }

  /** The strings of an array of strings. */
  function StringsOf(v: Option<Json>): seq<string> {
    if v.Some? && v.value.JArr? then Mapped(v.value.items, StrValue) else []
  }

  /** What an optional array field that passed its schema holds. */
  function OptionalStrings(v: Option<Json>): Field<seq<string>> {
    if v.None? then Absent else Present(StringsOf(v))
  }

  /** What a nullish string field with a `null` default holds once it passed. */
  function NullishText(v: Option<Json>): Field<string> {
    if v.None? || v == Some(JNull) then Null else Present(Text(v))
  }

  /** `v.pipe(v.string("Title is required"), v.minLength(1, ...), v.maxLength(255, ...))` */
  function TitleField(v: Option<Json>): (r: Result<string, seq<Issue>>)
    ensures r.Ok? <==> TitleOk(v)
    ensures r.Ok? ==> r.value == Text(v)
  {
    StrPipe(v, Some("Title is required"), 1, "Title cannot be empty", Some(255), "Title must be less than 255 characters")
  }

  /** `v.pipe(v.string(), v.maxLength(500, ...))` */
  function BoardDescriptionField(v: Option<Json>): (r: Result<string, seq<Issue>>)
    ensures r.Ok? <==> AtMost(v, 500)
    ensures r.Ok? ==> r.value == Text(v)
  {
    StrPipe(v, None, 0, "", Some(500), "Description must be less than 500 characters")
  }

  /** `v.pipe(v.string(), v.maxLength(2000, ...))` */
  function CardDescriptionField(v: Option<Json>): (r: Result<string, seq<Issue>>)
    ensures r.Ok? <==> AtMost(v, 2000)
    ensures r.Ok? ==> r.value == Text(v)
  {
    StrPipe(v, None, 0, "", Some(2000), "Description must be less than 2000 characters")
  }

  /** `v.pipe(v.string("Comment text is required"), v.minLength(1, ...), v.maxLength(1000, ...))` */
  function CommentTextField(v: Option<Json>): (r: Result<string, seq<Issue>>)
    ensures r.Ok? <==> CommentTextOk(v)
    ensures r.Ok? ==> r.value == Text(v)
  {
    StrPipe(v, Some("Comment text is required"), 1, "Comment text cannot be empty", Some(1000), "Comment must be less than 1000 characters")
  }

  /** `v.string()` */
  function PlainString(v: Option<Json>): (r: Result<string, seq<Issue>>)
    ensures r.Ok? <==> IsStr(v)
    ensures r.Ok? ==> r.value == Text(v)
  {
    Str(v, None)
  }

  /** The title limit is inclusive although its message says "less than": 255 units pass,
      256 fail with that message, and an empty title fails with its own message. */
  lemma TitleBoundary()
    ensures TitleField(Some(JStr(seq(255, _ => 'a')))).Ok?
    ensures TitleField(Some(JStr(seq(256, _ => 'a')))) == Err([Custom("Title must be less than 255 characters")])
    ensures TitleField(Some(JStr(""))) == Err([Custom("Title cannot be empty")])
    ensures TitleField(None) == Err([Custom("Title is required")])
  {
    Utf16LengthBmp(seq(255, _ => 'a'));
    Utf16LengthBmp(seq(256, _ => 'a'));
    assert Utf16Length("") == 0;
  }

  /** Lengths are counted in UTF-16 units: 128 characters outside the Basic Multilingual
      Plane make a title too long. */
  lemma TitleCountsUtf16Units()
    ensures TitleField(Some(JStr(seq(128, _ => '\U{1F600}')))) == Err([Custom("Title must be less than 255 characters")])
  {
    Utf16LengthAstral(seq(128, _ => '\U{1F600}'));
  }

  // ---------------------------------------------------------------------------------------
  // Schemas several front ends share

  datatype BoardOutput = BoardOutput(title: string, description: Field<string>)

  datatype CardOutput = CardOutput(title: string, description: Field<string>, assigneeId: Field<string>, tagIds: Field<seq<string>>)

  datatype CommentOutput = CommentOutput(cardId: string, userId: string, text: string)

  /** `BoardSchema`: a title and an optional description of at most 500 units. */
  function BoardSchema(input: Json): (r: Result<BoardOutput, seq<Issue>>)
    ensures !ObjectLike(input) ==> r == Err(NotAnObject)
    ensures r.Ok? <==>
      ObjectLike(input) && TitleOk(Get(input, "title"))
      && (Get(input, "description").None? || AtMost(Get(input, "description"), 500))
    ensures r.Ok? ==>
      r.value == BoardOutput(Text(Get(input, "title")), OptionalText(Get(input, "description")))
  {
    if !ObjectLike(input) then Err(NotAnObject)
    else
      var title := TitleField(Get(input, "title"));
      var description := Optional(Get(input, "description"), BoardDescriptionField);
      if title.Ok? && description.Ok? then Ok(BoardOutput(title.value, description.value))
      else Err(IssuesOf(title) + IssuesOf(description))
  }

  /** `v.object` lets an array body through to its entries, which all see a missing
      value: the board and card schemas then report only the missing title. */
  lemma ArrayBodyTitleRequired(items: seq<Json>)
    ensures BoardSchema(JArr(items)) == Err([Custom("Title is required")])
    ensures CardSchema(JArr(items)) == Err([Custom("Title is required")])
  {
    assert Get(JArr(items), "title").None? && Get(JArr(items), "description").None?;
    assert TitleField(None) == Err([Custom("Title is required")]);
    assert IssuesOf(Optional(None, BoardDescriptionField)) == [];
    assert [Custom("Title is required")] + [] == [Custom("Title is required")];
  }

  /** `CardSchema` with `tagIds: v.optional(v.array(v.string()))`: a title, an optional
      description of at most 2000 units, an optional assignee id and optional tag ids. */
  function CardSchema(input: Json): (r: Result<CardOutput, seq<Issue>>)
    ensures !ObjectLike(input) ==> r == Err(NotAnObject)
    ensures r.Ok? <==>
      ObjectLike(input) && TitleOk(Get(input, "title"))
      && (Get(input, "description").None? || AtMost(Get(input, "description"), 2000))
      && (Get(input, "assigneeId").None? || IsStr(Get(input, "assigneeId")))
      && (Get(input, "tagIds").None? || IsStrArray(Get(input, "tagIds")))
    ensures r.Ok? ==> r.value == CardOutput(Text(Get(input, "title")),
      OptionalText(Get(input, "description")), OptionalText(Get(input, "assigneeId")),
      OptionalStrings(Get(input, "tagIds")))
  {
    if !ObjectLike(input) then Err(NotAnObject)
    else
      var title := TitleField(Get(input, "title"));
      var description := Optional(Get(input, "description"), CardDescriptionField);
      var assigneeId := Optional(Get(input, "assigneeId"), PlainString);
      var tagIds := Optional(Get(input, "tagIds"), StrArray);
      if title.Ok? && description.Ok? && assigneeId.Ok? && tagIds.Ok? then
        Ok(CardOutput(title.value, description.value, assigneeId.value, tagIds.value))
      else Err(IssuesOf(title) + IssuesOf(description) + IssuesOf(assigneeId) + IssuesOf(tagIds))
  }

  /** `CommentSchema` with plain string ids: card id, user id and a text of 1 to 1000 units. */
  function CommentSchema(input: Json): (r: Result<CommentOutput, seq<Issue>>)
    ensures !ObjectLike(input) ==> r == Err(NotAnObject)
    ensures r.Ok? <==>
      ObjectLike(input) && IsStr(Get(input, "cardId")) && IsStr(Get(input, "userId"))
      && CommentTextOk(Get(input, "text"))
    ensures r.Ok? ==> r.value == CommentOutput(Text(Get(input, "cardId")), Text(Get(input, "userId")), Text(Get(input, "text")))
  {
    if !ObjectLike(input) then Err(NotAnObject)
    else
      var cardId := Str(Get(input, "cardId"), Some("Card ID is required"));
      var userId := Str(Get(input, "userId"), Some("User ID is required"));
      var text := CommentTextField(Get(input, "text"));
      if cardId.Ok? && userId.Ok? && text.Ok? then Ok(CommentOutput(cardId.value, userId.value, text.value))
      else Err(IssuesOf(cardId) + IssuesOf(userId) + IssuesOf(text))
  }

  /** Issues come in field order: a board body with an empty title and an overlong
      description reports the title first. */
  lemma BoardIssuesInFieldOrder(description: string)
    requires Utf16Length(description) > 500
    ensures BoardSchema(JObj(map["title" := JStr(""), "description" := JStr(description)]))
      == Err([Custom("Title cannot be empty"), Custom("Description must be less than 500 characters")])
  {
    var input := JObj(map["title" := JStr(""), "description" := JStr(description)]);
    assert Get(input, "title") == Some(JStr(""));
    assert Get(input, "description") == Some(JStr(description));
    assert Utf16Length("") == 0;
    assert TitleField(Get(input, "title")) == Err([Custom("Title cannot be empty")]);
    assert BoardDescriptionField(Some(JStr(description))) == Err([Custom("Description must be less than 500 characters")]);
    var description' := Optional(Get(input, "description"), BoardDescriptionField);
    assert description' == Err([Custom("Description must be less than 500 characters")]);
    var title := TitleField(Get(input, "title"));
    assert BoardSchema(input) == Err(IssuesOf(title) + IssuesOf(description'));
    assert IssuesOf(title) == [Custom("Title cannot be empty")];
    assert IssuesOf(description') == [Custom("Description must be less than 500 characters")];
    assert IssuesOf(title) + IssuesOf(description')
      == [Custom("Title cannot be empty"), Custom("Description must be less than 500 characters")];
  }
}
