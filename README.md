# Kanban board core, modelled in Dafny

The system is one kanban board application (boards, lists, cards, tags, comments) written
again in a dozen web frameworks. Under the page and HTTP layers four families of logic
carry behaviour that can be stated, and they are what this project models and proves:

- **Card positions on the server.** This covers:
  - the shift-based move of the Qwik City app (`ShiftMove`);
  - the renumbering move and the bulk reorder of the Nuxt app (`NuxtMove`, `NuxtReorder`);
  - the drag-and-drop actions of the SolidStart app (`SolidActions`);
  - the card and board services of the Go app "datastar" (`CardService`, `BoardService`);
  - the data layer of the vanilla app (`VanillaApi`).

  All of them work on one relational store. `Store` models it as a class `Db` whose
  tables are maps from ids to rows. The card-tag association, whose primary key is the
  pair, is a set of pairs.
- **Board aggregation.** Flat query rows are turned into the nested board → lists → cards
  → tags/comments view. `BoardView` models datastar's `BuildBoardDetails`.
  `VanillaApi.GetBoard` models the vanilla `getBoard`, and `Grouping` holds the shared
  grouping and lookup maps.
- **Client board transforms.** These are the four `drag-drop/logic.ts` variants: finding
  the drop target, parsing a drag event, the splice-based reorder, and the list rebuilds.
  `DragDrop` holds what they share. `DragDropSolidStart`, `DragDropTanstackSolid` and
  `DragDropNextjs` hold how each variant reads `list-`/`card-` ids.
- **Request validators.** These are valibot schemas. `Valibot` models the library
  pieces used: strings, length checks in UTF-16 code units, `optional`, `nullish`,
  `parseInt`, `trim`, arrays and issue lists. `Schemas` holds the field pipes the
  front ends share. `QwikValidation`, `NuxtValidation`, `HtmxValidation`,
  `SveltekitValidation` and `TanstackValidation` hold each front end's schemas.

Modelling choices that run through the project:

- Each state-changing operation is a method on `Db` with field-grained `modifies`
  clauses. Its `ensures` states the whole new table as a function of the old one, and
  lemmas about those functions state what the source promises.
- **Readings that SQL leaves open** are specified by what every possible answer satisfies:
  - which of two rows of equal rank an `ORDER BY` lists first;
  - the order of an unordered `SELECT`;
  - the row a `LIMIT`-free lookup settles on.

  Methods report the choice they made as a ghost out-parameter.
- **Store failures** are a parameter: a set of card ids whose writes the store refuses,
  or a set of statements that fail. This is done where the source's reaction to a
  failure is behaviour: a rollback, an early return, a swallowed error.
- **Things the source obtains from outside** are parameters: the clock, generated
  uuids, the answers of the Go app's generated queries, and `JSON.parse`.
- **Positions** keep each file's own convention. The Nuxt and reorder code numbers from
  0. Default lists are numbered from 1. The vanilla `createCard` puts the first card of
  an empty list at 0, and datastar puts it at one past what the query reports. `Ranked`
  expresses "the positions of a list are base, base + 1, …". Lemmas show which
  operations keep a ranked list ranked.

## Code and design differ

Where the design text and the code disagree, the model follows the code:

- **Title message.** The shared title pipe's message says the title must be "less than
  255 characters", but a title of exactly 255 code units passes (`Schemas.TitleBoundary`).
- **Vanilla `createCard` position.** It puts the first card of an empty list at 0, not 1
  (`VanillaApi.CreateCard`).
- **Vanilla `updateCardPositions`.** It writes the position each update carries, which
  need not be its index (`VanillaApi.UpdateCardPositions`).
- **Nextjs `resolveTargetListId`.** The nextjs variant (and the top-level `src/` copy)
  returns a `list-` id with its prefix (`DragDropNextjs.ResolveKeepsPrefix`).
- **`createCrossListUpdate` on one list.** Given the same source and target list, it
  drops the card: the source branch of the `if`/`else if` filters the card out, and the
  append in the target branch is never reached (`DragDrop.CrossListSameListDrops`).
- **Datastar card view.** `BuildBoardDetails` sets every card's `Completed` to true and
  ignores the row's `completed` column (`kanban-datastar/view/board/types.go:132`). The model
  keeps this (`BoardView.DetailsAllCompleted`).
- **Datastar `CreateCard` position.** It trusts `GetMaxPositionInList`, whose query is not
  part of this model. `CreateCard`'s contract therefore speaks of the answer that query
  gives. `CardService.CreatedCardLast` shows the card is appended when the answer is the
  list's largest position.

## Model

| member | source | states |
|---|---|---|
| ShiftMove.Shifted | kanban-qwikcity/src/db/actions.ts:26-39 | a ranged `position ± delta` UPDATE moves exactly the rows of list `l` in the range by `delta`, keeps every other row, and keeps the key set |
| ShiftMove.ShiftPositions | kanban-qwikcity/src/db/actions.ts:51-61 | one ranged UPDATE statement leaves the cards table as `Shifted` of the old one |
| ShiftMove.MoveAcross | kanban-qwikcity/src/db/actions.ts:24-46 | a move to another list (close the gap, open the slot, write the card) leaves the table as `Moved` |
| ShiftMove.MoveWithin | kanban-qwikcity/src/db/actions.ts:47-83 | a move within the card's own list (shift the sub-range up or down, write the card) leaves the table as `Moved` |
| ShiftMove.UpdateCardListAndPosition | kanban-qwikcity/src/db/actions.ts:8-84 | an unknown card gives the "Card … not found" error and no write; otherwise the table becomes `Moved(old, cardId, newListId, newPosition)` |
| ShiftMove.UpdateCardPosition | kanban-qwikcity/src/db/actions.ts:89-141 | an unknown card gives the "Card … not found" error and no write; otherwise the table becomes `Repositioned(old, cardId, newPosition)` |
| ShiftMove.MovedPlacesCard | kanban-qwikcity/src/db/actions.ts:41-82 | after any move the card has `listId = newListId` and `position = newPosition`, its other columns are unchanged, and the set of cards is the same |
| ShiftMove.MovedClosesGap | kanban-qwikcity/src/db/actions.ts:24-32 | in a cross-list move, each other card of the old list at or after `oldPosition + 1` moves up by one, and the rest of that list keep their rows |
| ShiftMove.MovedOpensSlot | kanban-qwikcity/src/db/actions.ts:34-39 | in a cross-list move, each card of the new list at or after `newPosition` moves down by one, and the rest keep their rows |
| ShiftMove.MovedUp | kanban-qwikcity/src/db/actions.ts:49-61 | in a same-list move upward, exactly the other cards with `newPosition <= position < oldPosition` move down by one |
| ShiftMove.MovedDown | kanban-qwikcity/src/db/actions.ts:62-75 | in a same-list move downward, exactly the other cards with `oldPosition < position <= newPosition` move up by one |
| ShiftMove.MovedFrame | kanban-qwikcity/src/db/actions.ts:8-84 | `completed` is never written; no card but the moved one changes anything except its position; cards of lists other than the old and new list are unchanged |
| ShiftMove.RepositionedUnchanged | kanban-qwikcity/src/db/actions.ts:103-105 | `updateCardPosition` with the card's current position leaves the table unchanged |
| ShiftMove.RepositionedIsSameListMove | kanban-qwikcity/src/db/actions.ts:89-141 | `updateCardPosition` has the same effect as `updateCardListAndPosition` with the card's own list |
| ShiftMove.MovedAcrossEffect | kanban-qwikcity/src/db/actions.ts:24-46 | the cross-list result card by card: the moved card in the slot, the cards after it in the old list up by one, the cards from the slot on in the new list down by one, everything else kept |
| ShiftMove.MovedWithinEffect | kanban-qwikcity/src/db/actions.ts:47-83 | the same-list result card by card, for the upward, the downward and the unchanged case |
| ShiftMove.AcrossSourceRanked | kanban-qwikcity/src/db/actions.ts:24-32 | closing the gap keeps the old list ranked: the positions stay `base, base + 1, …` with no repeat |
| ShiftMove.AcrossTargetRanked | kanban-qwikcity/src/db/actions.ts:34-46 | opening a slot at most one past the end keeps the new list ranked with the moved card in it |
| ShiftMove.WithinUpRanked | kanban-qwikcity/src/db/actions.ts:49-61 | an upward same-list move to a taken position keeps the list ranked |
| ShiftMove.WithinDownRanked | kanban-qwikcity/src/db/actions.ts:62-75 | a downward same-list move to a taken position keeps the list ranked |
| ShiftMove.MoveAcrossKeepsRanked | kanban-qwikcity/src/db/actions.ts:24-46 | a cross-list move into a slot at most one past the end of the new list keeps both lists ranked |
| ShiftMove.MoveWithinKeepsRanked | kanban-qwikcity/src/db/actions.ts:47-83 | a same-list move to a position some card of the list holds keeps the list ranked |
| NuxtMove.Reassigned | kanban-nuxt/server/api/cards/move.post.ts:24-29 | the first statement sets the card's list to the target when source and target differ, and does nothing otherwise |
| NuxtMove.ReassignedRows | kanban-nuxt/server/api/cards/move.post.ts:24-29 | the first statement changes at most the `listId` of that card |
| NuxtMove.TargetOrder | kanban-nuxt/server/api/cards/move.post.ts:50-54 | the target order has one more entry than the target list without the card, and the moved card sits at the index `splice` clamps `newPosition` to |
| NuxtMove.WrittenClear | kanban-nuxt/server/api/cards/move.post.ts:23-62 | every write of the transaction is accepted exactly when the list write (if any), the source renumbering and the target renumbering all are |
| NuxtMove.Transaction | kanban-nuxt/server/api/cards/move.post.ts:23-62 | the transaction's statements succeed exactly when no written card is refused; then the two SELECTs are valid ORDER BY answers and the table is `Committed` |
| NuxtMove.Move | kanban-nuxt/server/api/cards/move.post.ts:11-74 | a missing card id or target list, or an undefined position, gives 400 "Missing required fields" with no write; a refused write rolls everything back and gives 500; a commit leaves `Committed`; success holds exactly when no written card is refused |
| NuxtMove.CommittedChangesOnlyPositions | kanban-nuxt/server/api/cards/move.post.ts:23-62 | a committed move changes only the moved card's list (when the lists differ) and positions; no card is added or removed |
| NuxtMove.TargetPassSparesSource | kanban-nuxt/server/api/cards/move.post.ts:44-61 | when the lists differ, the target renumbering leaves the source list's rows as the source renumbering wrote them |
| NuxtMove.SourceAfterFirstPass | kanban-nuxt/server/api/cards/move.post.ts:31-61 | when the lists differ, the source list ends as the first renumbering left it |
| NuxtMove.SourceRenumbered | kanban-nuxt/server/api/cards/move.post.ts:31-42 | when the lists differ, the source list ends ranked from 0 with `sourceOrder[i]` at `i`, and no two of its cards swap their previous order |
| NuxtMove.ReindexedBefore | kanban-nuxt/server/api/cards/move.post.ts:56-61 | after renumbering along a sequence without repeats, a lower position means earlier in the sequence |
| NuxtMove.SortedBefore | kanban-nuxt/server/api/cards/move.post.ts:44-48 | an ORDER BY answer lists a card before another only if its position is not greater |
| NuxtMove.TargetOrderMembers | kanban-nuxt/server/api/cards/move.post.ts:44-54 | the spliced target order holds every card of the target list once, the moved card included |
| NuxtMove.TargetPairOrder | kanban-nuxt/server/api/cards/move.post.ts:50-61 | two other cards of the target list keep their order through the splice and the renumbering |
| NuxtMove.FirstPassKeepsTargetOrder | kanban-nuxt/server/api/cards/move.post.ts:31-48 | the source renumbering does not swap two other cards of the target list |
| NuxtMove.TargetPlaced | kanban-nuxt/server/api/cards/move.post.ts:44-61 | the target list ends ranked from 0, and the moved card is in it at `newPosition` clamped as `splice` clamps it |
| NuxtMove.TargetPairKept | kanban-nuxt/server/api/cards/move.post.ts:50-54 | two cards of the target list other than the moved one keep their previous relative order |
| NuxtMove.TargetRenumbered | kanban-nuxt/server/api/cards/move.post.ts:44-61 | the target list ends with positions 0..m-1, the moved card once at the clamped `newPosition` (appended past the end), and the other cards in their previous order |
| NuxtReorder.Reorder | kanban-nuxt/server/api/cards/reorder.post.ts:10-42 | a missing or non-array `cardIds` or a missing `listId` gives 400 with no write; otherwise `position := index` for each id inside one transaction; a refused write rolls back and gives 500 |
| NuxtReorder.ReorderEffect | kanban-nuxt/server/api/cards/reorder.post.ts:23-30 | a named card takes the last index that names it, whatever its list (`listId` filters nothing); unnamed cards keep their rows; only `position` is written |
| SolidActions.NormalizeListId | kanban-solidstart/src/api/drag-drop-actions.ts:8-9 | a `list-` id is returned unchanged; otherwise one leading `card-` is removed; any other id is returned unchanged |
| SolidActions.NormalizeStripsOnePrefix | kanban-solidstart/src/api/drag-drop-actions.ts:8-9 | `card-` followed by any id normalises to that id |
| SolidActions.NormalizeKeepsSecondPrefix | kanban-solidstart/src/api/drag-drop-actions.ts:9 | for every id, only the first of two leading `card-` prefixes is removed, so the normalisation is not idempotent |
| SolidActions.UpdateCardListAction | kanban-solidstart/src/api/drag-drop-actions.ts:11-26 | on success only the card's `listId` is written, set to the normalised target, and that id is reported; a store failure is answered `{success: false}` with its message and no write |
| SolidActions.UpdateCardPositionsAction | kanban-solidstart/src/api/drag-drop-actions.ts:28-45 | `cardIds[i]` gets position `i` inside one transaction; any failure rolls every write back and is answered with the message |
| CardService.FirstTodoId | kanban-datastar/pkg/services/card_service.go:28-34 | the id of the first list titled exactly "Todo", or "" when none is |
| CardService.FindTodoList | kanban-datastar/pkg/services/card_service.go:28-34 | the search loop with its `break` returns `FirstTodoId` |
| CardService.InsertCardTags | kanban-datastar/pkg/services/card_service.go:73-78 | each tag insert adds its pair unless the store refuses it; failures are dropped, so the card's new tags are a subset of `tagIDs` |
| CardService.CreateCard | kanban-datastar/pkg/services/card_service.go:22-81 | a failing list query or max query returns its error; no Todo list gives `sql.ErrNoRows`; any error inserts nothing; otherwise a card in the first Todo list at the max answer plus one, not completed, with an empty description or assignee stored as NULL, plus the accepted tag pairs |
| CardService.CreatedCardLast | kanban-datastar/pkg/services/card_service.go:40-45 | when the max query answers the list's largest position, the new card comes after every card of the list and a ranked list stays ranked |
| CardService.UpdateCard | kanban-datastar/pkg/services/card_service.go:84-118 | a failing update returns its error and writes nothing; otherwise the fields are replaced (empty → NULL); a failing delete returns its error with the tags kept; otherwise all the card's associations are deleted before the given tags are tried |
| CardService.UpdateCardList | kanban-datastar/pkg/services/card_service.go:145-165 | a failing list lookup returns its error with no write; otherwise `completed` is set to whether the list is titled "Done" (a failure of that write is ignored), then the card's list is set; the position is untouched |
| CardService.MovedCardFlag | kanban-datastar/pkg/services/card_service.go:150-164 | after a complete move the card is in the new list, is completed exactly when that list's title is "Done", and keeps its position and other columns; other cards are unchanged |
| CardService.UpdateCardPositions | kanban-datastar/pkg/services/card_service.go:168-179 | `cardIDs[i]` gets position `i` in turn; it fails exactly when some id is refused, returning at the first refused one with the earlier writes kept |
| BoardService.ListsWritten | kanban-datastar/pkg/services/board_service.go:43-55 | the number of list inserts that succeed before the first that fails, where an insert fails on a refused, taken or repeated id |
| BoardService.AllListsCreated | kanban-datastar/pkg/services/board_service.go:42-56 | when every insert succeeds, the board has exactly four lists, Todo, In-Progress, QA and Done, at positions 1 to 4, each under its own id |
| BoardService.ListsWrittenAt | kanban-datastar/pkg/services/board_service.go:43-55 | the first `k` inserts succeeding and insert `k` failing means `ListsWritten` is `k` |
| BoardService.InsertDefaultLists | kanban-datastar/pkg/services/board_service.go:42-55 | the list loop writes list `i` with title `ListTitles[i]` and position `i + 1`, stopping at the first failing insert |
| BoardService.CreateBoard | kanban-datastar/pkg/services/board_service.go:23-58 | a failing board insert returns ("", err) with no write; otherwise the board with an empty description stored as NULL, then the lists up to the first failure; success only when all four are written, otherwise ("", err) with the earlier rows kept |
| BoardService.GetBoardDetails | kanban-datastar/pkg/services/board_service.go:66-124 | the queries run in order; the first error is returned with an empty view and no users or tags; the card query runs only when there is a list, and the tag and comment queries only when there is a card; otherwise the view is `BuildBoardDetails` of the answers |
| Grouping.Group | kanban-datastar/view/board/types.go:72-87 | the rows with key `k`, in row order; never longer than the rows |
| Grouping.GroupMembers | kanban-datastar/view/board/types.go:72-87 | a row is in the group of `k` exactly when it is a row with key `k` |
| Grouping.GroupEmpty | kanban-vanilla/src/lib/api.ts:183-184 | a key no row has has the empty group |
| Grouping.GroupBefore | kanban-datastar/view/board/types.go:72-87 | whatever comes first in a group came first among the rows |
| Grouping.Find | kanban-vanilla/src/lib/api.ts:183-184 | the map's group for a key it holds, and `[]` for any other key |
| Grouping.GroupBy | kanban-datastar/view/board/types.go:72-87 | the append-per-row loop maps every key to its group |
| Grouping.LastBy | kanban-datastar/view/board/types.go:60-69 | the row a lookup map keeps for `k` is a row with key `k` |
| Grouping.LastByPresent | kanban-datastar/view/board/types.go:60-69 | a key is found exactly when some row has it |
| Grouping.LastByLatest | kanban-datastar/view/board/types.go:60-69 | the row found is one with the key that no later row has: the last write wins |
| Grouping.IndexBy | kanban-datastar/view/board/types.go:60-69 | the `m[key] = value` loop maps each key some row has to the value of the last row with it |
| BoardView.NullString | kanban-datastar/view/board/types.go:128-129 | `.String` of a nullable column: "" for NULL, the value otherwise |
| BoardView.CommentItems | kanban-datastar/view/board/types.go:109-117 | one comment item per comment row |
| BoardView.DetailsShape | kanban-datastar/view/board/types.go:89-156 | one output list per input list, in input order, with the same id, title and position; the board's id and title, and its description or "" for NULL |
| BoardView.DetailsListCards | kanban-datastar/view/board/types.go:84-94 | a list's cards are built from exactly the card rows with that list id, in row order; cards whose list is not present appear nowhere |
| BoardView.DetailsListComplete | kanban-datastar/view/board/types.go:84-94 | each card row of the list has its details among the list's cards |
| BoardView.DetailsListMembers | kanban-datastar/view/board/types.go:84-94 | each of the list's cards is the details of a card row with that list id |
| BoardView.DetailsListOrdered | kanban-datastar/view/board/types.go:84-95 | the list's cards keep the order of the card rows |
| BoardView.NameOfLookup | kanban-datastar/view/board/types.go:60-63 | a user name lookup gives "" for an unknown id and the name of the last user row with the id otherwise |
| BoardView.TagItemsFound | kanban-datastar/view/board/types.go:97-106 | the tag items are the tags the association rows name, with name and colour from the tag table; a dangling tag id contributes nothing |
| BoardView.DetailsCardTags | kanban-datastar/view/board/types.go:97-106 | a card's tags are exactly those its own association rows name and the tag table holds |
| BoardView.CommentItemsAt | kanban-datastar/view/board/types.go:109-117 | comment item `j` is comment row `j` with its text, user id and looked-up user name |
| BoardView.DetailsCardComments | kanban-datastar/view/board/types.go:109-117 | a card's comments are all its comment rows, in input order, each with the looked-up user name ("" for an unknown user) |
| BoardView.DetailsCardFields | kanban-datastar/view/board/types.go:119-135 | each card shows `completed` whatever its row says; a NULL description or assignee id reads ""; the assignee name is "" without an assignee and the looked-up name otherwise |
| BoardView.DetailsAllCompleted | kanban-datastar/view/board/types.go:132 | every card of every list of the view is completed |
| BoardView.BuildTagItems | kanban-datastar/view/board/types.go:97-106 | the tags loop of one card computes `TagItems` |
| BoardView.BuildCommentItems | kanban-datastar/view/board/types.go:109-117 | the comments loop of one card computes `CommentItems` |
| BoardView.BuildCard | kanban-datastar/view/board/types.go:95-135 | the cards-loop body builds `CardDetails` from the lookup maps |
| BoardView.BuildList | kanban-datastar/view/board/types.go:91-143 | the lists-loop body builds `ListDetails` from the lookup maps |
| BoardView.BuildBoardDetails | kanban-datastar/view/board/types.go:50-157 | the five lookup maps and the nested loops build `Details` of the rows |
| VanillaApi.ListsOfBoard | kanban-vanilla/src/lib/api.ts:75-83 | the rows the list select can return: the board's lists with their id, title and position |
| VanillaApi.CardsOfLists | kanban-vanilla/src/lib/api.ts:90-102 | the rows the card select can return: the cards whose list is among the given ones, with their columns |
| VanillaApi.TagsOfCards | kanban-vanilla/src/lib/api.ts:106-117 | the rows the inner join can return: the associations of the given cards with existing tags, with the tag's name and colour |
| VanillaApi.CommentsOfCards | kanban-vanilla/src/lib/api.ts:119-131 | the rows the comment select can return: the comments on the given cards, with their columns |
| VanillaApi.SelectLists | kanban-vanilla/src/lib/api.ts:75-83 | the board's lists once each, by ascending position |
| VanillaApi.SelectCards | kanban-vanilla/src/lib/api.ts:89-102 | the cards of the selected lists once each, by ascending position |
| VanillaApi.SelectTags | kanban-vanilla/src/lib/api.ts:104-117 | every association of a selected card with an existing tag once, in no fixed order |
| VanillaApi.SelectComments | kanban-vanilla/src/lib/api.ts:119-131 | the comments of the selected cards once each, by ascending creation time |
| VanillaApi.SetOfIds | kanban-vanilla/src/lib/api.ts:89 | the mapped list ids are the ids of the list rows |
| VanillaApi.CardIdsOf | kanban-vanilla/src/lib/api.ts:104 | the mapped card ids are the ids of the card rows |
| VanillaApi.NoListsNoCards | kanban-vanilla/src/lib/api.ts:85-87 | without lists the empty card answer is the right one, so returning early with `lists: []` loses nothing |
| VanillaApi.NoCardsNoRows | kanban-vanilla/src/lib/api.ts:106-131 | without cards the empty tag and comment answers are the right ones, so skipping those queries loses nothing |
| VanillaApi.GetBoard | kanban-vanilla/src/lib/api.ts:60-188 | null exactly for an unknown board; otherwise the assembled view over valid answers of the four selects and the two grouping maps |
| VanillaApi.AssembledLists | kanban-vanilla/src/lib/api.ts:170-173 | the view has the board's fields and exactly the board's lists, by ascending position, each with its id, title and position |
| VanillaApi.AssembledListCards | kanban-vanilla/src/lib/api.ts:174-185 | a list's cards are exactly the cards of that list, by ascending position, with their stored columns |
| VanillaApi.AssembledCardTags | kanban-vanilla/src/lib/api.ts:137-149 | a card's tags are exactly its associations with existing tags, with the tag's name and colour; a card without any gets `[]` |
| VanillaApi.AssembledCardComments | kanban-vanilla/src/lib/api.ts:151-184 | a card's comments are exactly the comments on it, with their columns, by ascending creation time |
| VanillaApi.CardCommentsStored | kanban-vanilla/src/lib/api.ts:155-168 | each comment of a card is a stored comment on that card, with its columns |
| VanillaApi.CardCommentsComplete | kanban-vanilla/src/lib/api.ts:151-184 | every stored comment on a card is among its comments |
| VanillaApi.CardCommentsOrdered | kanban-vanilla/src/lib/api.ts:119-168 | a card's comments come by ascending creation time |
| VanillaApi.CreateBoard | kanban-vanilla/src/lib/api.ts:204-225 | the board insert, then one multi-row insert of the four lists, with no transaction: a failing board insert writes nothing; a failing list insert leaves the board without lists; success returns the board |
| VanillaApi.CreatedBoardLists | kanban-vanilla/src/lib/api.ts:213-222 | after a successful insert the new lists are Todo, In-Progress, QA and Done at positions 1 to 4, and the lists already there are unchanged |
| VanillaApi.FindTodo | kanban-vanilla/src/lib/api.ts:240 | `find` gives the first row titled "Todo", and nothing exactly when no row has that title |
| VanillaApi.TodoListOf | kanban-vanilla/src/lib/api.ts:235-244 | a list of the board titled "Todo", and none exactly when the board has no such list |
| VanillaApi.CreateCard | kanban-vanilla/src/lib/api.ts:227-285 | "Todo list not found for this board" exactly when the board has no Todo list; otherwise, in one transaction, the card at `(max ?? -1) + 1` in a Todo list, not completed, and its tag pairs; a failing insert changes nothing |
| VanillaApi.CreatedCardAppended | kanban-vanilla/src/lib/api.ts:247-252 | the new card comes after every card of its list, at 0 in an empty list, and a list ranked from 0 stays ranked from 0 |
| VanillaApi.UpdateCard | kanban-vanilla/src/lib/api.ts:287-320 | in one transaction the card's fields are replaced and its associations become exactly the given tags; a repeated or refused tag fails the insert and nothing changes |
| VanillaApi.UpdatedIds | kanban-vanilla/src/lib/api.ts:341-344 | the card id of each update, in order |
| VanillaApi.Placed | kanban-vanilla/src/lib/api.ts:341-346 | after the updates in turn the same cards exist, and only `listId` and `position` have changed |
| VanillaApi.PlaceOne | kanban-vanilla/src/lib/api.ts:342-345 | one update sets that card's list and position and touches no other card |
| VanillaApi.PlacedAt | kanban-vanilla/src/lib/api.ts:341-346 | the last update naming a card decides its list and position, and a card no update names keeps its row |
| VanillaApi.PlacedStep | kanban-vanilla/src/lib/api.ts:341-346 | each update is applied to the table the earlier ones left |
| VanillaApi.ApplyPlacements | kanban-vanilla/src/lib/api.ts:341-346 | the loop runs the updates in order and stops at the first refused write, after the earlier updates |
| VanillaApi.UpdateCardPositions | kanban-vanilla/src/lib/api.ts:339-348 | all the updates happen inside one transaction, or a refused write rolls them all back |
| DragDrop.CardIds | kanban-solidstart/src/lib/drag-drop/logic.ts:111 | the ids of the cards, position by position |
| DragDrop.FindListWithCard | kanban-solidstart/src/lib/drag-drop/logic.ts:64-66 | the first list holding a card with the id, and nothing exactly when no list holds one |
| DragDrop.ListOfCard | kanban-solidstart/src/lib/drag-drop/logic.ts:30-33 | the id of the first list holding the card, and `null` exactly when no list holds it |
| DragDrop.FindCard | kanban-solidstart/src/lib/drag-drop/logic.ts:73 | the first card of the list with the id, and nothing exactly when none has it |
| DragDrop.Parsed | kanban-solidstart/src/lib/drag-drop/logic.ts:64-83 | `null` exactly when no list holds the card or the target is `null` or empty; otherwise the first card with the id in the first list holding it, that list as source, the target, and `isSameList` exactly when source and target agree |
| DragDrop.SpliceMoves | kanban-nextjs/src/lib/drag-drop/logic.ts:72-74 | the two splices give a permutation of the ids with the dragged id at the dropped-on card's old index and every other pair in its old order |
| DragDrop.MapCoversReordered | kanban-nextjs/src/lib/drag-drop/logic.ts:76-77 | every reordered id is in the id-to-card map, and the map holds the last card with that id |
| DragDrop.CalculateReorder | kanban-nextjs/src/lib/drag-drop/logic.ts:59-80 | `null` exactly when either id is not in the list; otherwise a permutation with the dragged card at the dropped-on card's index, the other cards in their old order, and each id paired with its card |
| DragDrop.ReorderedCardIds | kanban-nextjs/src/lib/drag-drop/logic.ts:76-79 | the reordered cards carry the reordered ids, so the list holds the same cards, each as often |
| DragDrop.CreateReorderUpdate | kanban-solidstart/src/lib/drag-drop/logic.ts:142-153 | the board keeps its fields and its number of lists |
| DragDrop.ReorderUpdateTouchesTarget | kanban-solidstart/src/lib/drag-drop/logic.ts:147-152 | each list keeps its id, title and position; only a list whose id is the target gets the reordered cards |
| DragDrop.WithoutCard | kanban-solidstart/src/lib/drag-drop/logic.ts:179 | the filter keeps exactly the cards with another id |
| DragDrop.WithoutCardRemovesOne | kanban-solidstart/src/lib/drag-drop/logic.ts:179 | filtering out a card whose id occurs once shortens the list by one |
| DragDrop.WithoutCardTail | kanban-solidstart/src/lib/drag-drop/logic.ts:179 | filtering out an id no card has changes nothing |
| DragDrop.WithoutCardBefore | kanban-solidstart/src/lib/drag-drop/logic.ts:179 | two cards other than the removed one come in the filtered list in the same order as before, and only then |
| DragDrop.CreateCrossListUpdate | kanban-solidstart/src/lib/drag-drop/logic.ts:171-186 | the board keeps its fields and every list keeps its id, title and position; the source list's cards become exactly its other cards, filtered without reordering (with `DragDrop.WithoutCardBefore`), so it no longer holds the card; a target list that is not the source gains the card at the end; every other list is unchanged |
| DragDrop.CrossListSameListDrops | kanban-solidstart/src/lib/drag-drop/logic.ts:178-182 | when source and target are the same list, the card is filtered out of it and not appended |
| DragDrop.ListIds | kanban-solidstart/src/lib/drag-drop/logic.ts:177 | the ids of the lists, position by position |
| DragDrop.CrossListCount | kanban-solidstart/src/lib/drag-drop/logic.ts:177-184 | across lists with distinct ids, a cross-list update takes one card away for the source list and adds one for a different target list |
| DragDrop.CrossListKeepsCount | kanban-solidstart/src/lib/drag-drop/logic.ts:171-186 | a move between two different lists of the board, with the card once in its source, keeps the number of cards on the board |
| DragDropSolidStart.StripCardPrefix | kanban-solidstart/src/lib/drag-drop/logic.ts:62 | a leading `card-` is removed once, and any other id is kept |
| DragDropSolidStart.ResolveTargetListId | kanban-solidstart/src/lib/drag-drop/logic.ts:20-37 | `list-X` gives X; `card-Y` gives the first list holding card Y, or `null`; any other id gives `null` |
| DragDropSolidStart.ResolvePrefixed | kanban-solidstart/src/lib/drag-drop/logic.ts:24-34 | `list-X` resolves to X, and `card-X` to the list holding card X |
| DragDropSolidStart.ParseDragEvent | kanban-solidstart/src/lib/drag-drop/logic.ts:56-84 | the shared parse outcome for the dragged id with its `card-` prefix stripped and the resolved target |
| DragDropSolidStart.ParsePrefixedCard | kanban-solidstart/src/lib/drag-drop/logic.ts:62 | a dragged card is found whether or not its id carries `card-` |
| DragDropSolidStart.CalculateReorder | kanban-solidstart/src/lib/drag-drop/logic.ts:101-127 | the shared reorder outcome, with the dropped-on id stripped of `card-` and the dragged id used as given |
| DragDropTanstackSolid.ResolveTargetListId | kanban-tanstack-solid/src/lib/drag-drop/logic.ts:8-21 | a `list-` id gives the rest of the id; any other id gives the first list holding a card with that id, or `null` |
| DragDropTanstackSolid.ResolveDrop | kanban-tanstack-solid/src/lib/drag-drop/logic.ts:12-20 | `list-X` resolves to X, and a bare id that is not a list drop resolves to the list holding that card |
| DragDropTanstackSolid.ParseDragEvent | kanban-tanstack-solid/src/lib/drag-drop/logic.ts:27-51 | the shared parse outcome for the ids as given |
| DragDropTanstackSolid.DropOnNeighbourIsSameList | kanban-tanstack-solid/src/lib/drag-drop/logic.ts:32-49 | dropping a card on another card of its own list is a same-list drop |
| DragDropNextjs.ResolveTargetListId | kanban-nextjs/src/lib/drag-drop/logic.ts:8-24 | a `list-` id is returned whole; a `card-` id gives the first list holding a card whose id is the whole droppable id, or `null`; any other id gives `null` |
| DragDropNextjs.ResolveKeepsPrefix | kanban-nextjs/src/lib/drag-drop/logic.ts:12-21 | `list-X` resolves to `list-X`, prefix included, and `card-X` looks for a card whose id is `card-X` |
| DragDropNextjs.ParseDragEvent | kanban-nextjs/src/lib/drag-drop/logic.ts:29-53 | the shared parse outcome for the ids as given |
| DragDropNextjs.ListDropSameList | kanban-nextjs/src/lib/drag-drop/logic.ts:29-53 | a drop on a list is a same-list drop exactly when the card's list id is the whole droppable id |
| Base.DropPrefix | kanban-tanstack-solid/src/lib/drag-drop/logic.ts:14 | what follows a prefix the string starts with: prefix and rest make the string again |
| Base.ReplaceFirst | kanban-solidstart/src/lib/drag-drop/logic.ts:25 | on a string starting with the pattern, `replace` drops that prefix, and the result is never longer than the string |
| Base.ReplaceFirstAbsent | kanban-solidstart/src/lib/drag-drop/logic.ts:29 | `replace` leaves a string in which the pattern does not occur unchanged |
| Base.ReplaceFirstAt | kanban-solidstart/src/lib/drag-drop/logic.ts:29 | `replace` removes exactly the first occurrence of the pattern and keeps the text before and after it |
| Base.Mapped | kanban-solidstart/src/lib/drag-drop/logic.ts:111 | `map` keeps the length and applies the function at every index |
| Base.IndexOf | kanban-solidstart/src/lib/drag-drop/logic.ts:112-113 | `indexOf` gives the first index holding the element, and -1 exactly when it is absent |
| Base.LastIndex | kanban-nuxt/server/api/cards/reorder.post.ts:24-29 | the last index holding the element, and -1 exactly when it is absent; the position a repeated id ends with after the updates in turn |
| Base.SpliceStart | kanban-nuxt/server/api/cards/move.post.ts:54 | `splice` clamps its start into the array: a start inside it is kept, one past the end means the end |
| Base.RemoveAt | kanban-nextjs/src/lib/drag-drop/logic.ts:73 | `splice(i, 1)` drops the element at i and shifts the later ones down |
| Base.InsertAt | kanban-nuxt/server/api/cards/move.post.ts:54 | `splice(start, 0, x)` puts x at the clamped start and shifts the later elements up |
| Base.RemoveAtMultiset | kanban-nextjs/src/lib/drag-drop/logic.ts:73 | removing at an index removes one occurrence of that element |
| Base.InsertAtMultiset | kanban-nextjs/src/lib/drag-drop/logic.ts:74 | inserting adds one occurrence |
| Base.RemoveAtBefore | kanban-nextjs/src/lib/drag-drop/logic.ts:73 | removing an element never reorders the others |
| Base.Without | kanban-nuxt/server/api/cards/move.post.ts:50-52 | `filter` keeps exactly the other elements |
| Base.WithoutRemovesOne | kanban-nuxt/server/api/cards/move.post.ts:50-52 | filtering out an element that occurs once shortens the array by one |
| Base.WithoutAbsent | kanban-nuxt/server/api/cards/move.post.ts:50-52 | filtering out an element that does not occur changes nothing |
| Base.WithoutNoDup | kanban-nuxt/server/api/cards/move.post.ts:50-52 | filtering keeps an array free of repetitions |
| Base.WithoutBefore | kanban-nuxt/server/api/cards/move.post.ts:50-52 | filtering never reorders the remaining elements |
| Base.InsertAtBefore | kanban-nuxt/server/api/cards/move.post.ts:54 | inserting never reorders the other elements |
| Base.InsertAtMembers | kanban-nuxt/server/api/cards/move.post.ts:54 | after the insert the elements are the old ones and the new one |
| Base.InsertAtNoDup | kanban-nuxt/server/api/cards/move.post.ts:54 | inserting an absent element keeps the array free of repetitions |
| Store.SelectOrdered | kanban-vanilla/src/lib/api.ts:75-83 | an `ORDER BY` answer: every selected key exactly once, by non-decreasing rank, ties in either order |
| Store.InsertByRank | kanban-vanilla/src/lib/api.ts:75-83 | inserting after every element of no greater rank keeps the answer sorted and adds exactly that key |
| Store.SetPosition | kanban-qwikcity/src/db/actions.ts:79-81 | a position update changes that card's position and no other column or card; an unknown id changes nothing |
| Store.SetList | kanban-nuxt/server/api/cards/move.post.ts:25-28 | a list update changes that card's list and no other column or card; an unknown id changes nothing |
| Store.SetCompleted | kanban-datastar/pkg/services/card_service.go:150-159 | a completed update changes that card's flag and no other column or card |
| Store.CardsOfList | kanban-nuxt/server/api/cards/move.post.ts:31-35 | the ids of exactly the cards of the list |
| Store.Positions | kanban-nuxt/server/api/cards/move.post.ts:35 | the position column of every card |
| Store.Predecessor | kanban-qwikcity/src/db/actions.ts:26-38 | in a gap-free list the position below a taken one is taken |
| Store.DenseBelow | kanban-qwikcity/src/db/actions.ts:26-38 | in a gap-free list every position from the base up to a taken one is taken |
| Store.RankedAgree | kanban-nuxt/server/api/cards/move.post.ts:23-62 | whether a list is ranked depends only on its own cards' rows |
| Store.AppendedDistinct | kanban-vanilla/src/lib/api.ts:247-252 | a new card above every position of its list keeps positions distinct |
| Store.AppendedDense | kanban-vanilla/src/lib/api.ts:247-252 | a new card one past the highest position, or at the base of an empty list, keeps the list gap-free |
| Store.AppendedRanked | kanban-vanilla/src/lib/api.ts:247-252 | such a new card keeps a ranked list ranked |
| Store.Reindexed | kanban-nuxt/server/api/cards/reorder.post.ts:24-29 | the `position = index` updates in turn change only positions |
| Store.ReindexedAt | kanban-nuxt/server/api/cards/reorder.post.ts:24-29 | a card named by the updates ends at the last index naming it, and any other card keeps its row |
| Store.ReindexedNoDup | kanban-nuxt/server/api/cards/reorder.post.ts:24-29 | with no id repeated, card `ids[i]` ends at position i |
| Store.ReindexedPositions | kanban-nuxt/server/api/cards/move.post.ts:37-42 | renumbering exactly a list's cards, each once, puts `ids[i]` at position i |
| Store.ReindexedRanked | kanban-nuxt/server/api/cards/move.post.ts:37-42 | such a renumbering ranks the list from 0 |
| Store.ReindexedDense | kanban-nuxt/server/api/cards/move.post.ts:37-42 | such a renumbering leaves the list gap-free from 0 |
| Store.ListingRenumbered | kanban-nuxt/server/api/cards/move.post.ts:31-42 | renumbering along an `ORDER BY position` answer ranks the list from 0, puts the i-th card at i, and never swaps two cards' old order |
| Store.RenumberedThenSpared | kanban-nuxt/server/api/cards/move.post.ts:31-61 | those facts survive a later step that leaves the list's rows alone |
| Store.NullIfEmpty | kanban-datastar/pkg/services/card_service.go:49-52 | NULL exactly for the empty string, the string itself otherwise |
| Store.DefaultLists | kanban-datastar/pkg/services/board_service.go:41-55 | the default lists of a new board are exactly one row per given id |
| Store.DefaultListsAt | kanban-datastar/pkg/services/board_service.go:41-55 | with distinct ids, list i is titled after the i-th default title at position i + 1 |
| Store.TagPairs | kanban-vanilla/src/lib/api.ts:272-281 | the inserted associations are exactly the given tags the store accepts, paired with the card |
| Store.Edited | kanban-vanilla/src/lib/api.ts:297-304 | the card's title, description and assignee are replaced, and nothing else changes |
| Store.Untagged | kanban-vanilla/src/lib/api.ts:307 | the delete removes exactly the card's associations |
| Store.RetaggedExactly | kanban-vanilla/src/lib/api.ts:307-318 | after delete-then-insert the card's tags are exactly the accepted given ids, and other cards' tags are unchanged |
| Store.Db.UpdatePosition | kanban-qwikcity/src/db/actions.ts:79-81 | runs the position update on the cards table |
| Store.Db.UpdateList | kanban-solidstart/src/api/drag-drop-actions.ts:15-18 | runs the list update on the cards table |
| Store.Db.SelectCardsOfList | kanban-nuxt/server/api/cards/move.post.ts:31-35 | answers with a possible `ORDER BY position` listing of the list's cards |
| Store.Db.WritePositions | kanban-nuxt/server/api/cards/reorder.post.ts:24-29 | runs the `position = index` updates in order, stopping at the first refused write, and reports how many ran |
| Store.Db.MaxPosition | kanban-vanilla/src/lib/api.ts:247-250 | NULL exactly for a list without cards, otherwise a taken position no card of the list exceeds |
| Store.Db.UpdateCompleted | kanban-datastar/pkg/services/card_service.go:150-159 | runs the completed update on the cards table |
| Store.Db.TagsOf | kanban-vanilla/src/lib/api.ts:106-117 | the tags associated with the card |
| Valibot.Utf16Length | kanban-qwikcity/src/lib/validation.ts:7-8 | the length `minLength`/`maxLength` check: between the number of characters and twice that |
| Valibot.Utf16LengthBmp | kanban-qwikcity/src/lib/validation.ts:7-8 | characters of the Basic Multilingual Plane count one unit each |
| Valibot.Utf16LengthAstral | kanban-qwikcity/src/lib/validation.ts:7-8 | characters outside it count two units each |
| Valibot.TrimStart | kanban-qwikcity/src/lib/validation.ts:30 | what `trimStart` leaves: a suffix of the text that does not start with whitespace |
| Valibot.TrimEnd | kanban-qwikcity/src/lib/validation.ts:30 | what `trimEnd` leaves: a prefix of the text that does not end with whitespace |
| Valibot.TrimStartEmpty | kanban-qwikcity/src/lib/validation.ts:30 | `trimStart` leaves nothing exactly when every character is whitespace |
| Valibot.TrimEndEmpty | kanban-qwikcity/src/lib/validation.ts:30 | `trimEnd` leaves nothing exactly when every character is whitespace |
| Valibot.TrimEmpty | kanban-qwikcity/src/lib/validation.ts:30 | `trim().length === 0` holds exactly for whitespace-only text |
| Valibot.DigitChar | kanban-qwikcity/src/lib/validation.ts:103 | the digit character of each value below 10 |
| Valibot.DigitPrefix | kanban-qwikcity/src/lib/validation.ts:103 | the longest run of digits at the start of the text |
| Valibot.DecimalString | kanban-qwikcity/src/lib/validation.ts:103 | the decimal form of a number is a non-empty digit string |
| Valibot.ParseInt10 | kanban-qwikcity/src/lib/validation.ts:103 | `parseInt(value, 10)` gives NaN exactly when no digit follows the leading whitespace and sign |
| Valibot.ParseSigned | kanban-qwikcity/src/lib/validation.ts:103 | the same for a text without leading whitespace |
| Valibot.DecimalRoundTrip | kanban-qwikcity/src/lib/validation.ts:103 | the digits of a number's decimal form read back as the number |
| Valibot.DigitPrefixOf | kanban-qwikcity/src/lib/validation.ts:103 | the digit run of digits followed by a non-digit is those digits |
| Valibot.TrimStartKeeps | kanban-qwikcity/src/lib/validation.ts:103 | a text that starts with a non-space keeps its start |
| Valibot.ParseIntDigits | kanban-qwikcity/src/lib/validation.ts:103 | `parseInt` of digits followed by a non-digit is their value |
| Valibot.ParseIntMinus | kanban-qwikcity/src/lib/validation.ts:103 | a minus sign before a digit negates what `parseInt` reads |
| Valibot.ParseIntDecimal | kanban-qwikcity/src/lib/validation.ts:103 | `parseInt` reads a number's decimal form back and stops at the first non-digit |
| Valibot.ParseIntSigned | kanban-qwikcity/src/lib/validation.ts:103 | `parseInt` of a minus sign and digits is the digits' value negated |
| Valibot.MinusSign | kanban-qwikcity/src/lib/validation.ts:103 | a text starting with a minus sign has no leading whitespace, and its unsigned part is what follows |
| Valibot.ParseIntMinusDigits | kanban-qwikcity/src/lib/validation.ts:103 | `parseInt` of a minus sign, digits and a non-digit is the negated value |
| Valibot.ParseIntNegative | kanban-qwikcity/src/lib/validation.ts:103 | a minus sign before a number's decimal form gives the negated number |
| Valibot.Str | kanban-qwikcity/src/lib/validation.ts:6 | `v.string(message)` accepts exactly strings, as they are, and otherwise reports one type issue with the message |
| Valibot.StrPipe | kanban-qwikcity/src/lib/validation.ts:5-9 | a string pipe accepts exactly strings within the bounds; a non-string gives only the type issue, and each failing bound gives its own message |
| Valibot.ItemIssues | kanban-sveltekit/src/lib/validation.ts:82 | no item issue exactly when every item is a string |
| Valibot.StrArray | kanban-sveltekit/src/lib/validation.ts:82 | `v.array(v.string())` accepts exactly arrays of strings and keeps the items in order |
| Valibot.Optional | kanban-qwikcity/src/lib/validation.ts:10-15 | `v.optional` accepts a missing value and leaves it missing; a present value goes through the schema |
| Valibot.OptionalDefault | kanban-qwikcity/src/lib/validation.ts:22-44 | `v.optional(schema, default)` sends the default through the schema in place of a missing value |
| Valibot.Nullish | kanban-htmx/src/lib/validation.ts:10-16 | `v.nullish(schema, null)` turns a missing value or `null` into `null`; anything else goes through the schema |
| Valibot.OptionalNullable | kanban-nuxt/server/utils/validation.ts:49-54 | `v.optional(v.nullable(schema))` keeps a missing value missing and `null` as `null` |
| Schemas.TitleField | kanban-qwikcity/src/lib/validation.ts:5-9 | accepts exactly strings of 1 to 255 UTF-16 units |
| Schemas.BoardDescriptionField | kanban-qwikcity/src/lib/validation.ts:11-14 | accepts exactly strings of at most 500 units |
| Schemas.CardDescriptionField | kanban-qwikcity/src/lib/validation.ts:53-56 | accepts exactly strings of at most 2000 units |
| Schemas.CommentTextField | kanban-qwikcity/src/lib/validation.ts:90-94 | accepts exactly strings of 1 to 1000 units |
| Schemas.PlainString | kanban-qwikcity/src/lib/validation.ts:58 | `v.string()` accepts exactly strings |
| Schemas.TitleBoundary | kanban-qwikcity/src/lib/validation.ts:5-9 | 255 units pass, 256 fail with the "less than 255" message, an empty title and a missing one fail with their own messages |
| Schemas.TitleCountsUtf16Units | kanban-qwikcity/src/lib/validation.ts:8 | 128 characters outside the Basic Multilingual Plane make a title too long |
| Schemas.BoardSchema | kanban-tanstack-solid/src/lib/validation.ts:4-16 | a body passes exactly with a valid title and a missing or valid description, and the output is those fields |
| Schemas.CardSchema | kanban-tanstack-solid/src/lib/validation.ts:22-36 | a body passes exactly with a valid title, description, assignee and tag ids, and the output is those fields |
| Schemas.ArrayBodyTitleRequired | kanban-tanstack-solid/src/lib/validation.ts:4-36 | an array body passes `v.object`, and the board and card schemas then report only "Title is required" |
| Schemas.CommentSchema | kanban-tanstack-solid/src/lib/validation.ts:63-71 | a body passes exactly with string card and user ids and a valid text, and the output is those fields |
| Schemas.BoardIssuesInFieldOrder | kanban-tanstack-solid/src/lib/validation.ts:4-16 | issues come in field order: an empty title and an overlong description give the title's message first |
| QwikValidation.TagIdsPipe | kanban-qwikcity/src/lib/validation.ts:23-41 | an array goes straight to the item check, a string through the JSON transform, and anything else is a type issue |
| QwikValidation.TagIdsField | kanban-qwikcity/src/lib/validation.ts:22-44 | an array of strings passes unchanged; missing, blank, unparsable or non-array text gives `[]`; a parsed array must hold only strings |
| QwikValidation.BlankTagIds | kanban-qwikcity/src/lib/validation.ts:30-32 | whitespace-only text gives no tag ids |
| QwikValidation.CardSchema | kanban-qwikcity/src/lib/validation.ts:46-60 | a body passes exactly when each field passes, and the output is those fields with the parsed tag ids |
| QwikValidation.CardUpdateSchema | kanban-qwikcity/src/lib/validation.ts:66-81 | the same after a string card id |
| QwikValidation.PositionField | kanban-qwikcity/src/lib/validation.ts:100-107 | a number or a text `parseInt` can read passes; the output is floored and never negative; other text gives "Position must be a number" |
| QwikValidation.PositionOfDecimal | kanban-qwikcity/src/lib/validation.ts:100-107 | a position written in decimal is read back as itself |
| QwikValidation.PositionOfNegative | kanban-qwikcity/src/lib/validation.ts:100-107 | a negative position written in decimal is read as 0 |
| QwikValidation.MoveCardSchema | kanban-qwikcity/src/lib/validation.ts:109-113 | a body passes exactly with string card and list ids and a valid position, and the output is those fields |
| QwikValidation.UpdateCardPositionSchema | kanban-qwikcity/src/lib/validation.ts:117-120 | a body passes exactly with a string card id and a valid position |
| NuxtValidation.AnyArray | kanban-nuxt/server/utils/validation.ts:56 | accepts exactly arrays, items untouched |
| NuxtValidation.NonEmptyStrings | kanban-nuxt/server/utils/validation.ts:61-63 | the filter keeps exactly the non-empty string items |
| NuxtValidation.NonEmptyStringsOrder | kanban-nuxt/server/utils/validation.ts:61-63 | the filter keeps the tag ids in their order |
| NuxtValidation.NonEmptyStringsKeepsClean | kanban-nuxt/server/utils/validation.ts:61-63 | tag ids that are all non-empty strings pass unchanged |
| NuxtValidation.NullIfEmpty | kanban-nuxt/server/utils/validation.ts:66-68 | an empty assignee id becomes `null`, anything else is kept |
| NuxtValidation.Filtered | kanban-nuxt/server/utils/validation.ts:60-64 | tag ids are filtered only when sent |
| NuxtValidation.CardUpdateSchema | kanban-nuxt/server/utils/validation.ts:42-71 | every field is optional; an object or array body passes exactly when each present field passes, and any other body gets the `Object` issue; the output has the tags filtered and an empty assignee as `null` |
| NuxtValidation.ArrayBodyAccepted | kanban-nuxt/server/utils/validation.ts:42-71 | `v.object` lets an array through, so an array body is accepted with every field missing |
| HtmxValidation.RequiredText | kanban-htmx/src/lib/validation.ts:35-38 | a non-empty string passes, and otherwise one issue with the one message |
| HtmxValidation.CardTitleField | kanban-htmx/src/lib/validation.ts:48-52 | titles of 1 to 255 units pass, and each failure has the card-title message |
| HtmxValidation.CardCreateDescriptionField | kanban-htmx/src/lib/validation.ts:54-57 | descriptions up to 2000 units pass, and a longer one has the card-description message |
| HtmxValidation.TagIdsOrEmpty | kanban-htmx/src/lib/validation.ts:61 | missing tag ids are `[]`, present ones must be an array of strings |
| HtmxValidation.BoardSchema | kanban-htmx/src/lib/validation.ts:4-17 | a body passes exactly with a valid title and a missing, `null` or valid description; a missing description comes out `null` |
| HtmxValidation.BoardSchemaWidensShared | kanban-htmx/src/lib/validation.ts:10-16 | it accepts everything the shared board schema does and `null` descriptions too, and agrees with it except that a missing description is `null` |
| HtmxValidation.CardSchema | kanban-htmx/src/lib/validation.ts:23-40 | the shared card fields with a required non-empty assignee id; a missing or empty one gives "Assignee is required" |
| HtmxValidation.CardSchemaNarrowsShared | kanban-htmx/src/lib/validation.ts:35-38 | it accepts exactly what the shared card schema accepts with a non-empty assignee |
| HtmxValidation.CardCreateSchema | kanban-htmx/src/lib/validation.ts:46-62 | a non-empty board id, a valid title, nullish description and assignee, and tag ids defaulting to `[]` |
| HtmxValidation.CardCreateDefaults | kanban-htmx/src/lib/validation.ts:53-61 | a body with only a board id and a title gives no description, no assignee and no tags |
| HtmxValidation.CardUpdateSchema | kanban-htmx/src/lib/validation.ts:68-84 | a string card id, a valid title, nullish description and assignee, and tag ids defaulting to `[]` |
| HtmxValidation.CommentSchema | kanban-htmx/src/lib/validation.ts:90-101 | a string card id, a non-empty user id and a text of 1 to 1000 units |
| HtmxValidation.CommentSchemaNarrowsShared | kanban-htmx/src/lib/validation.ts:92-95 | it accepts exactly what the shared comment schema accepts with a non-empty user id |
| SveltekitValidation.BoardIdField | kanban-sveltekit/src/lib/validation.ts:20 | a string board id passes, and anything else gives "Board ID is required" |
| SveltekitValidation.CardSchema | kanban-sveltekit/src/lib/validation.ts:19-31 | a string board id and the shared card fields; without the board id the first issue is "Board ID is required" |
| SveltekitValidation.CardUpdateSchema | kanban-sveltekit/src/lib/validation.ts:37-50 | string board and card ids and the shared card fields |
| SveltekitValidation.CommentSchema | kanban-sveltekit/src/lib/validation.ts:56-65 | a string board id and the shared comment fields |
| SveltekitValidation.CardListUpdateSchema | kanban-sveltekit/src/lib/validation.ts:71-75 | string card, list and board ids |
| SveltekitValidation.CardPositionUpdateSchema | kanban-sveltekit/src/lib/validation.ts:81-84 | an array of string card ids and a string board id |
| SveltekitValidation.CardPositionUpdateKeepsOrder | kanban-sveltekit/src/lib/validation.ts:82 | the card ids come out as sent, in order |
| SveltekitValidation.DeleteCardSchema | kanban-sveltekit/src/lib/validation.ts:90-93 | string card and board ids |
| SveltekitValidation.BoardIdAlwaysRequired | kanban-sveltekit/src/lib/validation.ts:20-92 | no schema that names a board accepts a body without a string board id, and each reports "Board ID is required" |
| TanstackValidation.CardUpdateSchema | kanban-tanstack-solid/src/lib/validation.ts:42-57 | a string card id and the shared card fields; without the card id the first issue is "Card ID is required" |
| TanstackValidation.UpdateAgreesWithCreate | kanban-tanstack-solid/src/lib/validation.ts:42-57 | an update and a create of the same body agree on every card field |

## Left out

- HTTP, form and SSE handling (status codes, `readBody`, `revalidate`, response shapes) is out. Only each operation's outcome is modelled: its result, its error or the 400 it answers with.
- The clock (`Date.now()`, `time.Now()`) and generated ids (`crypto.randomUUID()`, `uuid.New()`) are parameters, because their values come from outside the program.
- The bodies of the Go app's generated SQL queries (`GetMaxPositionInList`, `GetListsByBoardId`, `GetCardsByListIds` and the others in `sqlcgen`) are not part of this model. `Sqlc.Queries` stands for their answers, and the services' contracts speak of those answers.
- `JSON.parse` is a parameter of `QwikValidation.TagIdsField`, because parsing JSON text is not part of this model.
- Floating point is out. JSON numbers are reals, so `Math.floor` of a non-integral position is exact here. The 2^53 limit of JavaScript integers, which `parseInt` of very long digit runs runs into, is not modelled.
- Valibot's issue objects keep only their custom message, or the expected type when the schema gives no message. Where a schema has no custom message (`Schemas.PlainString`, the item issues of `Valibot.StrArray`, the `Object` issue of a body that is neither an object nor an array), `DefaultType(expected)` stands in for valibot's default text. That text is not modelled, although callers send `result.issues[0].message` back to the client (kanban-nuxt/server/api/cards/index.post.ts:21, kanban-nuxt/server/api/boards/index.post.ts:15, kanban-htmx/src/pages/api/boards.ts:37, kanban-sveltekit/src/routes/+page.server.ts:32). The `kind`, `received` and `path` fields are left out too.
- The issue shapes follow the `v.pipe` API of valibot 0.31 to 0.42, where `v.object` runs a required key's schema on `undefined`. A missing required key therefore reports that schema's type issue with its own message, such as "Title is required". Valibot 1.x instead reports a `key` issue with its default text for a missing key. The dependency versions are not part of this model, so that choice is an assumption.
- The top-level `src/lib/drag-drop/logic.ts` is the nextjs variant with different comments. `DragDropNextjs` models both.
- Concurrency is out: `SetMaxOpenConns(1)` and interleaved requests are not modelled. Every operation runs alone, start to finish.
- The store's own failures are modelled only where the source reacts to them (a rollback, an early return, a swallowed error). The qwik shift statements and the vanilla board view can fail in the source too; such a failure propagates unchanged and is not modelled.
- VanillaApi.TodoListOf: does not say which Todo list is chosen when a board has several, because the list select has no `ORDER BY`.
- VanillaApi.CreateCard: places the card in some Todo list of the board, for the same reason.
- CardService.CreateCard: says the new card is at one past the max query's answer, not one past the list's largest position, because that query is not part of this model (`CardService.CreatedCardLast` covers the case where the answer is right).
- CardService.FirstTodoId: is the first Todo list in the order the list query answers, which is not part of this model.
- NuxtValidation.CardUpdateSchema: returns a new output value, where the transform changes the parsed object in place. No caller sees the difference.
- NuxtMove.Move: treats the `db.transaction(async (tx) => …)` callback (kanban-nuxt/server/api/cards/move.post.ts:23) as one atomic transaction that commits every write or none and answers `{ success: true }` on commit. The `db` this handler imports is a better-sqlite3 drizzle instance (kanban-nuxt/server/utils/db.ts:42-59), and that driver's transactions are synchronous. Given a callback that returns a promise, it would throw "Transaction function cannot return a promise" and roll back a still-empty transaction, so the handler would answer 500. The awaited UPDATEs would then run afterwards, each committed on its own, with no rollback. The driver's behaviour is library code outside this model, so the atomic reading is kept. The same holds for `NuxtMove.Transaction`.
- NuxtMove.MovePayload: `sourceListId` is a required string, although the handler reads it unchecked (kanban-nuxt/server/api/cards/move.post.ts:14). A body without it, where `undefined !== targetListId` makes the list reassignment run, cannot be represented.
- NuxtMove.MovePayload: `newPosition` is missing or an integer. A `null` position passes the `=== undefined` guard (move.post.ts:16), and `splice(null, 0, …)` then inserts at 0. That case, like any other non-number, is not modelled.
- Card deletion, comment creation and the other store operations outside the named functions are not modelled.
