/** The rows and errors of the Go app's generated query layer (sqlc), as the datastar
    services and views use them. The SQL of the generated queries is not part of this
    model: what a read query answers is given to the operations that issue it. */
module Sqlc {
  import opened Base

  /** The generated statements the datastar services issue. */
  datatype Stmt =
    | CreateBoard | CreateList | CreateCard | CreateCardTag | UpdateCard | DeleteCardTags
    | UpdateCardCompleted | UpdateCardList | UpdateCardPosition
    | GetBoard | GetListsByBoardId | GetUsers | GetTags | GetCardsByListIds
    | GetTagsByCardIds | GetCommentsByCardIds | GetMaxPositionInList | GetListByListId

  /** `sql.ErrNoRows`, or the failure of one statement. */
  datatype DbError = ErrNoRows | Failed(stmt: Stmt)

  datatype GetBoardRow = GetBoardRow(id: Id, title: string, description: Option<string>)
  datatype GetListsByBoardIdRow = GetListsByBoardIdRow(id: Id, title: string, position: int)
  datatype GetCardsByListIdsRow = GetCardsByListIdsRow(
    id: Id, listId: Id, title: string, description: Option<string>, assigneeId: Option<Id>,
    position: int, completed: bool)
  datatype GetTagsByCardIdsRow = GetTagsByCardIdsRow(cardId: Id, tagId: Id)
  datatype Comment = Comment(id: Id, cardId: Id, userId: Id, text: string)
  datatype User = User(id: Id, name: string)
  datatype GetTagsRow = GetTagsRow(id: Id, name: string, color: string)

  // The keys the lookup maps are built on.
  function UserId(u: User): Id { u.id }
  function UserName(u: User): string { u.name }
  function TagId(t: GetTagsRow): Id { t.id }
  function TagRowItself(t: GetTagsRow): GetTagsRow { t }
  function CardTagCard(ct: GetTagsByCardIdsRow): Id { ct.cardId }
  function CommentCard(c: Comment): Id { c.cardId }
  function CardList(c: GetCardsByListIdsRow): Id { c.listId }

  /** What the generated read queries answer. Their SQL is not part of this model, so an
      operation receives the answers rather than computing them from the tables. */
  datatype Queries = Queries(
    getBoard: Id -> Result<GetBoardRow, DbError>,
    getListsByBoardId: Id -> Result<seq<GetListsByBoardIdRow>, DbError>,
    getUsers: Result<seq<User>, DbError>,
    getTags: Result<seq<GetTagsRow>, DbError>,
    getCardsByListIds: seq<Id> -> Result<seq<GetCardsByListIdsRow>, DbError>,
    getTagsByCardIds: seq<Id> -> Result<seq<GetTagsByCardIdsRow>, DbError>,
    getCommentsByCardIds: seq<Id> -> Result<seq<Comment>, DbError>,
    getMaxPositionInList: Id -> Result<int, DbError>,
    getListByListId: Id -> Result<GetListsByBoardIdRow, DbError>)
}
