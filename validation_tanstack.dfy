/** The tanstack-solid front end's validators (`src/lib/validation.ts`). Its board, card and
    comment schemas are the shared ones; its card update schema is the shared card field
    list after a card id. */
module TanstackValidation {
  import opened Base
  import opened Valibot
  import Schemas

  datatype CardUpdateOutput = CardUpdateOutput(
    cardId: string, title: string, description: Field<string>, assigneeId: Field<string>, tagIds: Field<seq<string>>)

  /** `CardUpdateSchema`: a card id, then the shared card fields. */
  function CardUpdateSchema(input: Json): (r: Result<CardUpdateOutput, seq<Issue>>)
    ensures !ObjectLike(input) ==> r == Err(NotAnObject)
    ensures r.Ok? <==> ObjectLike(input) && IsStr(Get(input, "cardId")) && Schemas.CardSchema(input).Ok?
    ensures r.Ok? ==>
      var c := Schemas.CardSchema(input).value;
      r.value == CardUpdateOutput(Text(Get(input, "cardId")), c.title, c.description, c.assigneeId, c.tagIds)
    ensures ObjectLike(input) && !IsStr(Get(input, "cardId")) ==> r.Err? && |r.error| > 0 && r.error[0] == Custom("Card ID is required")
  {
    if !ObjectLike(input) then Err(NotAnObject)
    else
      var cardId := Str(Get(input, "cardId"), Some("Card ID is required"));
      var card := Schemas.CardSchema(input);
      if cardId.Ok? && card.Ok? then
        Ok(CardUpdateOutput(cardId.value, card.value.title, card.value.description, card.value.assigneeId, card.value.tagIds))
      else Err(IssuesOf(cardId) + IssuesOf(card))
  }

  /** An update and a create of the same body agree on every card field; the update only
      adds the card id. */
  lemma UpdateAgreesWithCreate(input: Json)
    requires CardUpdateSchema(input).Ok?
    ensures Schemas.CardSchema(input).Ok?
    ensures var u := CardUpdateSchema(input).value; var c := Schemas.CardSchema(input).value;
      Schemas.CardOutput(u.title, u.description, u.assigneeId, u.tagIds) == c
  {
  }
}
