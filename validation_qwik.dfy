/** The qwikcity front end's form validators (`src/lib/validation.ts`). Form posts carry
    every field as a string, so the tag ids may come as a JSON text, which `tagIdsField`
    parses, and positions as decimal text, which `positionField` reads with `parseInt` and
    clamps at zero. Its board and comment schemas are the shared ones in `Schemas`. */
module QwikValidation {
  import opened Base
  import opened Valibot
  import Schemas

  datatype CardOutput = CardOutput(title: string, description: Field<string>, assigneeId: Field<string>, tagIds: seq<string>)

  datatype CardUpdateOutput = CardUpdateOutput(
    cardId: string, title: string, description: Field<string>, assigneeId: Field<string>, tagIds: seq<string>)

  datatype MoveCardOutput = MoveCardOutput(cardId: string, listId: string, newPosition: int)

  datatype UpdateCardPositionOutput = UpdateCardPositionOutput(cardId: string, position: int)

  /** The items a tag-id text stands for: none for blank text, for text that does not
      parse as JSON (`JSON.parse` throws), or for JSON that is not an array; otherwise the
      array's items. `parse` stands for `JSON.parse`, `None` for a throw. */
  function JsonTagIds(s: string, parse: string -> Option<Json>): seq<Json> {
    if Trim(s) == [] then []
    else
      var p := parse(s);
      if p.Some? && p.value.JArr? then p.value.items else []
  }

  /** `v.union([v.string(), v.array(v.string())])`, the transform, then `v.array(v.string())`. */
  function TagIdsPipe(v: Option<Json>, parse: string -> Option<Json>): (r: Result<seq<string>, seq<Issue>>)
    ensures IsStr(v) ==> r == StrArray(Some(JArr(JsonTagIds(v.value.s, parse))))
    ensures Schemas.IsStrArray(v) ==> r == StrArray(v)
    ensures !IsStr(v) && !Schemas.IsStrArray(v) ==> r == Err([DefaultType("(string | Array)")])
  {
    if IsStr(v) then StrArray(Some(JArr(JsonTagIds(v.value.s, parse))))
    else if Schemas.IsStrArray(v) then StrArray(v)
    else Err([DefaultType("(string | Array)")])
  }

  /** `tagIdsField`: an array of strings passes unchanged; a missing field is `[]`; a
      string becomes `[]` when blank, unparsable or not a JSON array, and otherwise the
      parsed array, which must hold only strings; anything else is a type issue. */
  function TagIdsField(v: Option<Json>, parse: string -> Option<Json>): (r: Result<seq<string>, seq<Issue>>)
    ensures v.None? ==> r == Ok([])
    ensures Schemas.IsStrArray(v) ==> r == Ok(Schemas.StringsOf(v))
    ensures IsStr(v) && Trim(v.value.s) == [] ==> r == Ok([])
    ensures IsStr(v) && Trim(v.value.s) != [] && (parse(v.value.s).None? || !parse(v.value.s).value.JArr?) ==> r == Ok([])
    ensures IsStr(v) && Trim(v.value.s) != [] && parse(v.value.s).Some? && parse(v.value.s).value.JArr? ==>
      r == StrArray(parse(v.value.s))
    ensures v.Some? && !IsStr(v) && !Schemas.IsStrArray(v) ==> r == Err([DefaultType("(string | Array)")])
  {
    OptionalDefault(v, JArr([]), (w: Option<Json>) => TagIdsPipe(w, parse))
  }

  /** Text made only of whitespace (`trim().length === 0`) gives no tag ids. */
  lemma BlankTagIds(s: string, parse: string -> Option<Json>)
    requires forall i | 0 <= i < |s| :: IsJsWhitespace(s[i])
    ensures TagIdsField(Some(JStr(s)), parse) == Ok([])
  {
    TrimEmpty(s);
  }

  /** `CardSchema`: a title, an optional description of at most 2000 units, an optional
      assignee id and `tagIdsField`. */
  function CardSchema(input: Json, parse: string -> Option<Json>): (r: Result<CardOutput, seq<Issue>>)
    ensures !ObjectLike(input) ==> r == Err(NotAnObject)
    ensures r.Ok? <==>
      ObjectLike(input) && Schemas.TitleOk(Get(input, "title"))
      && (Get(input, "description").None? || Schemas.AtMost(Get(input, "description"), 2000))
      && (Get(input, "assigneeId").None? || IsStr(Get(input, "assigneeId")))
      && TagIdsField(Get(input, "tagIds"), parse).Ok?
    ensures r.Ok? ==> r.value == CardOutput(Text(Get(input, "title")),
      OptionalText(Get(input, "description")), OptionalText(Get(input, "assigneeId")),
      TagIdsField(Get(input, "tagIds"), parse).value)
  {
    if !ObjectLike(input) then Err(NotAnObject)
    else
      var title := Schemas.TitleField(Get(input, "title"));
      var description := Optional(Get(input, "description"), Schemas.CardDescriptionField);
      var assigneeId := Optional(Get(input, "assigneeId"), Schemas.PlainString);
      var tagIds := TagIdsField(Get(input, "tagIds"), parse);
      if title.Ok? && description.Ok? && assigneeId.Ok? && tagIds.Ok? then
        Ok(CardOutput(title.value, description.value, assigneeId.value, tagIds.value))
      else Err(IssuesOf(title) + IssuesOf(description) + IssuesOf(assigneeId) + IssuesOf(tagIds))
  }

  /** `CardUpdateSchema`: the card schema's fields after a card id. */
  function CardUpdateSchema(input: Json, parse: string -> Option<Json>): (r: Result<CardUpdateOutput, seq<Issue>>)
    ensures !ObjectLike(input) ==> r == Err(NotAnObject)
    ensures r.Ok? <==>
      ObjectLike(input) && IsStr(Get(input, "cardId")) && Schemas.TitleOk(Get(input, "title"))
      && (Get(input, "description").None? || Schemas.AtMost(Get(input, "description"), 2000))
      && (Get(input, "assigneeId").None? || IsStr(Get(input, "assigneeId")))
      && TagIdsField(Get(input, "tagIds"), parse).Ok?
    ensures r.Ok? ==> r.value == CardUpdateOutput(Text(Get(input, "cardId")), Text(Get(input, "title")),
      OptionalText(Get(input, "description")), OptionalText(Get(input, "assigneeId")),
      TagIdsField(Get(input, "tagIds"), parse).value)
  {
    if !ObjectLike(input) then Err(NotAnObject)
    else
      var cardId := Str(Get(input, "cardId"), Some("Card ID is required"));
      var title := Schemas.TitleField(Get(input, "title"));
      var description := Optional(Get(input, "description"), Schemas.CardDescriptionField);
      var assigneeId := Optional(Get(input, "assigneeId"), Schemas.PlainString);
      var tagIds := TagIdsField(Get(input, "tagIds"), parse);
      if cardId.Ok? && title.Ok? && description.Ok? && assigneeId.Ok? && tagIds.Ok? then
        Ok(CardUpdateOutput(cardId.value, title.value, description.value, assigneeId.value, tagIds.value))
      else Err(IssuesOf(cardId) + IssuesOf(title) + IssuesOf(description) + IssuesOf(assigneeId) + IssuesOf(tagIds))
  }

  /** `Math.max(0, n)` */
  function AtLeastZero(n: int): nat {
    if n < 0 then 0 else n
  }

  /** `positionField`: a string goes through `parseInt(value, 10)` and must give a number; a
      number is taken as it is; either is floored and clamped at zero. */
  function PositionField(v: Option<Json>): (r: Result<int, seq<Issue>>)
    ensures r.Ok? <==> (v.Some? && v.value.JNum?) || (IsStr(v) && ParseInt10(v.value.s).Some?)
    ensures r.Ok? ==> r.value >= 0
    ensures IsStr(v) && ParseInt10(v.value.s).Some? ==>
      r.value == (if ParseInt10(v.value.s).value < 0 then 0 else ParseInt10(v.value.s).value)
    ensures v.Some? && v.value.JNum? ==>
      r.value as real <= (if v.value.n < 0.0 then 0.0 else v.value.n) < r.value as real + 1.0
    ensures IsStr(v) && ParseInt10(v.value.s).None? ==> r == Err([Custom("Position must be a number")])
    ensures !IsStr(v) && !(v.Some? && v.value.JNum?) ==> r == Err([DefaultType("(string | number)")])
  {
    if IsStr(v) then
      match ParseInt10(v.value.s)
      case None => Err([Custom("Position must be a number")])
      case Some(k) => Ok(AtLeastZero(k))
    else if v.Some? && v.value.JNum? then Ok(AtLeastZero(v.value.n.Floor))
    else Err([DefaultType("(string | number)")])
  }

  /** A position written in decimal is read back as itself. */
  lemma PositionOfDecimal(n: nat)
    ensures PositionField(Some(JStr(DecimalString(n)))) == Ok(n)
  {
    var z := DecimalString(n);
    ParseIntDecimal(n, "");
    assert z + "" == z;
    assert ParseInt10(z) == Some(n);
  }

  /** A negative position written in decimal is read as 0. */
  lemma PositionOfNegative(n: nat)
    ensures PositionField(Some(JStr("-" + DecimalString(n)))) == Ok(0)
  {
    var z := "-" + DecimalString(n);
    ParseIntNegative(n, "");
    assert z + "" == z;
    assert ParseInt10(z) == Some(-(n as int));
  }

  /** `MoveCardSchema`: a card id, a target list id and a position. */
  function MoveCardSchema(input: Json): (r: Result<MoveCardOutput, seq<Issue>>)
    ensures !ObjectLike(input) ==> r == Err(NotAnObject)
    ensures r.Ok? <==>
      ObjectLike(input) && IsStr(Get(input, "cardId")) && IsStr(Get(input, "listId"))
      && PositionField(Get(input, "newPosition")).Ok?
    ensures r.Ok? ==>
      r.value == MoveCardOutput(Text(Get(input, "cardId")), Text(Get(input, "listId")),
                                PositionField(Get(input, "newPosition")).value)
  {
    if !ObjectLike(input) then Err(NotAnObject)
    else
      var cardId := Str(Get(input, "cardId"), Some("Card ID is required"));
      var listId := Str(Get(input, "listId"), Some("Target list ID is required"));
      var newPosition := PositionField(Get(input, "newPosition"));
      if cardId.Ok? && listId.Ok? && newPosition.Ok? then
        Ok(MoveCardOutput(cardId.value, listId.value, newPosition.value))
      else Err(IssuesOf(cardId) + IssuesOf(listId) + IssuesOf(newPosition))
  }

  /** `UpdateCardPositionSchema`: a card id and a position. */
  function UpdateCardPositionSchema(input: Json): (r: Result<UpdateCardPositionOutput, seq<Issue>>)
    ensures !ObjectLike(input) ==> r == Err(NotAnObject)
    ensures r.Ok? <==> ObjectLike(input) && IsStr(Get(input, "cardId")) && PositionField(Get(input, "position")).Ok?
    ensures r.Ok? ==>
      r.value == UpdateCardPositionOutput(Text(Get(input, "cardId")), PositionField(Get(input, "position")).value)
  {
    if !ObjectLike(input) then Err(NotAnObject)
    else
      var cardId := Str(Get(input, "cardId"), Some("Card ID is required"));
      var position := PositionField(Get(input, "position"));
      if cardId.Ok? && position.Ok? then Ok(UpdateCardPositionOutput(cardId.value, position.value))
      else Err(IssuesOf(cardId) + IssuesOf(position))
  }
}
