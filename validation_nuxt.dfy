/** The nuxt front end's request validators (`server/utils/validation.ts`). Its board, card
    and comment schemas are the shared ones in `Schemas`; its card update schema makes
    every field optional and then normalises the body: the tag ids keep only non-empty
    strings and an empty assignee id becomes `null`. */
module NuxtValidation {
  import opened Base
  import opened Valibot
  import Schemas

  datatype CardUpdateOutput = CardUpdateOutput(
    title: Field<string>, description: Field<string>, assigneeId: Field<string>, tagIds: Field<seq<string>>)

  /** `v.array(v.pipe(v.any(), v.transform(val => val)))`: any array, items untouched. */
  function AnyArray(v: Option<Json>): (r: Result<seq<Json>, seq<Issue>>)
    ensures r.Ok? <==> v.Some? && v.value.JArr?
    ensures r.Ok? ==> r.value == v.value.items
  {
    if v.Some? && v.value.JArr? then Ok(v.value.items) else Err([DefaultType("Array")])
  }

  /** `ids.filter(id => id !== null && id !== undefined && id !== '' && typeof id === 'string')` */
  function NonEmptyStrings(items: seq<Json>): (r: seq<string>)
    ensures forall s :: s in r <==> JStr(s) in items && s != ""
    ensures |r| <= |items|
  {
    if items == [] then []
    else (if items[0].JStr? && items[0].s != "" then [items[0].s] else []) + NonEmptyStrings(items[1..])
  }

  /** An order in the tail of a sequence is an order in the sequence. */
  lemma BeforeInTail<T>(s: seq<T>, a: T, b: T)
    requires s != [] && Before(s[1..], a, b)
    ensures Before(s, a, b)
  {
    var p, q :| 0 <= p < q < |s[1..]| && s[1..][p] == a && s[1..][q] == b;
    assert s[p + 1] == a && s[q + 1] == b;
  }

  /** The head of a sequence comes before anything in its tail. */
  lemma HeadBefore<T>(s: seq<T>, b: T)
    requires s != [] && b in s[1..]
    ensures Before(s, s[0], b)
  {
    var q :| 0 <= q < |s[1..]| && s[1..][q] == b;
    assert s[q + 1] == b;
  }

  /** The filter keeps the tag ids in their order. */
  lemma {:induction false} NonEmptyStringsOrder(items: seq<Json>, a: string, b: string)
    requires Before(NonEmptyStrings(items), a, b)
    ensures Before(items, JStr(a), JStr(b))
  {
    var r := NonEmptyStrings(items);
    var i, j :| 0 <= i < j < |r| && r[i] == a && r[j] == b;
    var rest := NonEmptyStrings(items[1..]);
    if items[0].JStr? && items[0].s != "" {
      assert r == [items[0].s] + rest;
      if i == 0 {
        assert b in rest by { assert rest[j - 1] == b; }
        assert items[0] == JStr(a);
        HeadBefore(items, JStr(b));
      } else {
        assert rest[i - 1] == a && rest[j - 1] == b;
        NonEmptyStringsOrder(items[1..], a, b);
        BeforeInTail(items, JStr(a), JStr(b));
      }
    } else {
      assert r == rest;
      NonEmptyStringsOrder(items[1..], a, b);
      BeforeInTail(items, JStr(a), JStr(b));
    }
  }

  /** Tag ids that are all non-empty strings pass the filter unchanged. */
  lemma {:induction false} NonEmptyStringsKeepsClean(items: seq<Json>)
    requires forall i | 0 <= i < |items| :: items[i].JStr? && items[i].s != ""
    ensures NonEmptyStrings(items) == Mapped(items, StrValue)
  {
    if items != [] {
      NonEmptyStringsKeepsClean(items[1..]);
      MappedTail(items, StrValue);
      assert Mapped(items, StrValue) == [StrValue(items[0])] + Mapped(items, StrValue)[1..];
    }
  }

  /** The transform's `assigneeId === '' ? null : assigneeId`. */
  function NullIfEmpty(f: Field<string>): (g: Field<string>)
    ensures f == Present("") ==> g == Null
    ensures f != Present("") ==> g == f
  {
    if f == Present("") then Null else f
  }

  /** The transform's tag filter, applied when tag ids were sent. */
  function Filtered(f: Field<seq<Json>>): (g: Field<seq<string>>)
    ensures f.Absent? ==> g == Absent
    ensures f.Present? ==> g == Present(NonEmptyStrings(f.value))
  {
    match f
    case Present(items) => Present(NonEmptyStrings(items))
    case Absent => Absent
    case Null => Null
  }

  /** `CardUpdateSchema`: an optional title of 1 to 255 units, an optional description that
      is `null` or at most 2000 units, an optional assignee id and optional tag ids of any
      kind; then the tag ids are filtered and an empty assignee id becomes `null`. */
  function CardUpdateSchema(input: Json): (r: Result<CardUpdateOutput, seq<Issue>>)
    ensures !ObjectLike(input) ==> r == Err(NotAnObject)
    ensures r.Ok? <==>
      ObjectLike(input)
      && (Get(input, "title").None? || Schemas.TitleOk(Get(input, "title")))
      && (Get(input, "description").None? || Get(input, "description") == Some(JNull)
          || Schemas.AtMost(Get(input, "description"), 2000))
      && (Get(input, "assigneeId").None? || IsStr(Get(input, "assigneeId")))
      && (Get(input, "tagIds").None? || Get(input, "tagIds").value.JArr?)
    ensures r.Ok? ==> r.value.title == OptionalText(Get(input, "title"))
    ensures r.Ok? ==> r.value.description == OptionalText(Get(input, "description"))
    ensures r.Ok? ==>
      r.value.assigneeId ==
      (if Get(input, "assigneeId").None? then Absent
       else if Text(Get(input, "assigneeId")) == "" then Null
       else Present(Text(Get(input, "assigneeId"))))
    ensures r.Ok? ==>
      r.value.tagIds ==
      (if Get(input, "tagIds").None? then Absent else Present(NonEmptyStrings(Get(input, "tagIds").value.items)))
  {
    if !ObjectLike(input) then Err(NotAnObject)
    else
      var title := Optional(Get(input, "title"), Schemas.TitleField);
      var description := OptionalNullable(Get(input, "description"), Schemas.CardDescriptionField);
      var assigneeId := Optional(Get(input, "assigneeId"), Schemas.PlainString);
      var tagIds := Optional(Get(input, "tagIds"), AnyArray);
      if title.Ok? && description.Ok? && assigneeId.Ok? && tagIds.Ok? then
        Ok(CardUpdateOutput(title.value, description.value, NullIfEmpty(assigneeId.value), Filtered(tagIds.value)))
      else Err(IssuesOf(title) + IssuesOf(description) + IssuesOf(assigneeId) + IssuesOf(tagIds))
  }

  /** An array body passes `v.object`, and every field of the update schema is optional,
      so it is accepted with every field missing. */
  lemma ArrayBodyAccepted(items: seq<Json>)
    ensures CardUpdateSchema(JArr(items)) == Ok(CardUpdateOutput(Absent, Absent, Absent, Absent))
  {
  }
}
