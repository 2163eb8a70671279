/** The relational store shared by the server-side operations: the tables of the
    kanban schema (boards, lists, cards, tags, card_tags, comments, users) held as
    maps from primary key to row. `card_tags` has the composite primary key
    (card_id, tag_id), so it is a set of pairs and inserting a pair twice is a no-op
    failure. A SELECT with ORDER BY is `SelectOrdered`: it yields every matching key
    once, sorted by the ordering column, with ties in no particular order. */
module Store {
  import opened Base

  datatype BoardRow = BoardRow(title: string, description: Option<string>, createdAt: int)
  datatype ListRow = ListRow(boardId: Id, title: string, position: int, createdAt: int)
  datatype CardRow = CardRow(
    listId: Id,
    title: string,
    description: Option<string>,
    assigneeId: Option<Id>,
    position: int,
    completed: bool,
    createdAt: int)
  datatype TagRow = TagRow(name: string, color: string)
  datatype CommentRow = CommentRow(cardId: Id, userId: Id, text: string, createdAt: int)

  /** `s` is sorted by `rank` (non-decreasing), and every element has a rank. */
  ghost predicate SortedBy<K>(s: seq<K>, rank: map<K, int>) {
    && (forall i | 0 <= i < |s| :: s[i] in rank)
    && (forall i, j | 0 <= i < j < |s| :: rank[s[i]] <= rank[s[j]])
  }

  /** Insert `x` into a sorted sequence after every element of no greater rank. */
  function InsertByRank<K(!new)>(s: seq<K>, x: K, rank: map<K, int>): (r: seq<K>)
    requires x in rank && SortedBy(s, rank)
    ensures SortedBy(r, rank)
    ensures |r| == |s| + 1
    ensures forall k :: k in r <==> k in s || k == x
    ensures NoDup(s) && x !in s ==> NoDup(r)
  {
    if s == [] then [x]
    else if rank[x] < rank[s[0]] then [x] + s
    else
      var t := InsertByRank(s[1..], x, rank);
      assert forall k | k in t :: rank[s[0]] <= rank[k] by {
        forall k | k in t ensures rank[s[0]] <= rank[k] {
          if k != x {
            var i :| 0 <= i < |s[1..]| && s[1..][i] == k;
            assert s[i + 1] == k;
          }
        }
      }
      ConsSorted(s[0], t, rank);
      if NoDup(s) && x !in s then
        HeadNotInTail(s);
        ConsNoDup(s[0], t);
        [s[0]] + t
      else [s[0]] + t
  }

  /** A head ranked no higher than every element of a sorted tail keeps it sorted. */
  lemma ConsSorted<K>(h: K, t: seq<K>, rank: map<K, int>)
    requires h in rank && SortedBy(t, rank) && forall k | k in t :: rank[h] <= rank[k]
    ensures SortedBy([h] + t, rank)
  {
    var r := [h] + t;
    forall i, j | 0 <= i < j < |r| ensures rank[r[i]] <= rank[r[j]] {
      assert r[j] == t[j - 1] && t[j - 1] in t;
      if i > 0 { assert r[i] == t[i - 1]; }
    }
  }

  /** A head not in a tail without repetitions gives a sequence without repetitions. */
  lemma ConsNoDup<K>(h: K, t: seq<K>)
    requires NoDup(t) && h !in t
    ensures NoDup([h] + t)
  {
    var r := [h] + t;
    forall i, j | 0 <= i < j < |r| ensures r[i] != r[j] {
      assert r[j] == t[j - 1];
      if i > 0 { assert r[i] == t[i - 1]; } else { assert t[j - 1] in t; }
    }
  }

  /** In a sequence without repetitions the head does not recur. */
  lemma HeadNotInTail<K>(s: seq<K>)
    requires s != [] && NoDup(s)
    ensures s[0] !in s[1..]
  {
    forall i | 0 <= i < |s| - 1 ensures s[1..][i] != s[0] {
      assert s[i + 1] != s[0];
    }
  }

  /** `SELECT key ... WHERE key IN keys ORDER BY rank`: every key of `keys` exactly once,
      in non-decreasing rank. Which of several rows of equal rank comes first is left
      open, as SQL leaves it. */
  method SelectOrdered<K(!new)>(keys: set<K>, rank: map<K, int>) returns (out: seq<K>)
    requires keys <= rank.Keys
    ensures NoDup(out)
    ensures forall k :: k in out <==> k in keys
    ensures SortedBy(out, rank)
  {
    out := [];
    var rest := keys;
    while rest != {}
      invariant rest <= keys
      invariant NoDup(out) && SortedBy(out, rank)
      invariant forall k :: k in out <==> k in keys && k !in rest
      decreases rest
    {
      var x :| x in rest;
      out := InsertByRank(out, x, rank);
      rest := rest - {x};
    }
  }

  /** The ids of the cards whose `list_id` is `listId`. */
  function CardsOfList(cards: map<Id, CardRow>, listId: Id): (ids: set<Id>)
    ensures forall id :: id in ids <==> id in cards && cards[id].listId == listId
  {
    set id | id in cards && cards[id].listId == listId
  }

  /** The `position` column of the cards table. */
  function Positions(cards: map<Id, CardRow>): (rank: map<Id, int>)
    ensures rank.Keys == cards.Keys
    ensures forall id | id in cards :: rank[id] == cards[id].position
  {
    map id | id in cards :: cards[id].position
  }

  /** The card `id` with its `position` column set to `p`; unknown ids are left alone
      (`UPDATE cards SET position = p WHERE id = ?` matches no row). */
  function SetPosition(cards: map<Id, CardRow>, id: Id, p: int): (r: map<Id, CardRow>)
    ensures r.Keys == cards.Keys
    ensures id in cards ==> r[id] == cards[id].(position := p)
    ensures forall k | k in cards && k != id :: r[k] == cards[k]
  {
    if id in cards then cards[id := cards[id].(position := p)] else cards
  }

  /** The card `id` with its `list_id` column set to `l`; unknown ids are left alone. */
  function SetList(cards: map<Id, CardRow>, id: Id, l: Id): (r: map<Id, CardRow>)
    ensures r.Keys == cards.Keys
    ensures id in cards ==> r[id] == cards[id].(listId := l)
    ensures forall k | k in cards && k != id :: r[k] == cards[k]
  {
    if id in cards then cards[id := cards[id].(listId := l)] else cards
  }

  // ---------------------------------------------------------------------------
  // The ordering invariant: positions within a list are distinct and gap-free

  ghost predicate InList(cards: map<Id, CardRow>, id: Id, l: Id) {
    id in cards && cards[id].listId == l
  }

  /** Some card of list `l` sits at position `p`. */
  ghost predicate Occupied(cards: map<Id, CardRow>, l: Id, p: int) {
    exists id :: InList(cards, id, l) && cards[id].position == p
  }

  /** No two cards of list `l` share a position. */
  ghost predicate Distinct(cards: map<Id, CardRow>, l: Id) {
    forall a, b | InList(cards, a, l) && InList(cards, b, l) && a != b :: cards[a].position != cards[b].position
  }

  /** Every card of list `l` is at `base` or above, and every position above `base`
      that is taken has its predecessor taken too. */
  ghost predicate Dense(cards: map<Id, CardRow>, l: Id, base: int) {
    forall a | InList(cards, a, l) ::
      base <= cards[a].position && (cards[a].position > base ==> Occupied(cards, l, cards[a].position - 1))
  }

  /** The positions of list `l` are `base, base + 1, ..., base + n - 1` in some order. */
  ghost predicate Ranked(cards: map<Id, CardRow>, l: Id, base: int) {
    Distinct(cards, l) && Dense(cards, l, base)
  }

  /** In a dense list the position below a taken one above `base` is taken, by `b`. */
  lemma Predecessor(cards: map<Id, CardRow>, l: Id, base: int, d: Id) returns (b: Id)
    requires Dense(cards, l, base) && InList(cards, d, l) && cards[d].position > base
    ensures InList(cards, b, l) && cards[b].position == cards[d].position - 1
  {
    b :| InList(cards, b, l) && cards[b].position == cards[d].position - 1;
  }

  /** In a dense list every position from `base` up to a taken one is taken. */
  lemma {:induction false} DenseBelow(cards: map<Id, CardRow>, l: Id, base: int, p: int, q: int)
    requires Dense(cards, l, base) && Occupied(cards, l, p)
    requires base <= q <= p
    ensures Occupied(cards, l, q)
    decreases p - q
  {
    if q < p {
      var a :| InList(cards, a, l) && cards[a].position == p;
      DenseBelow(cards, l, base, p - 1, q);
    }
  }

  /** Whether a list is ranked depends only on the list ids and the positions of its cards. */
  lemma RankedAgree(cards: map<Id, CardRow>, m: map<Id, CardRow>, l: Id, base: int)
    requires m.Keys == cards.Keys && forall id | id in cards :: m[id].listId == cards[id].listId
    requires forall id | InList(cards, id, l) :: m[id] == cards[id]
    requires Ranked(cards, l, base)
    ensures Ranked(m, l, base)
  {
    forall a | InList(m, a, l) ensures base <= m[a].position && (m[a].position > base ==> Occupied(m, l, m[a].position - 1)) {
      assert InList(cards, a, l);
      if m[a].position > base {
        var b :| InList(cards, b, l) && cards[b].position == m[a].position - 1;
        assert InList(m, b, l);
      }
    }
    forall a, b | InList(m, a, l) && InList(m, b, l) && a != b ensures m[a].position != m[b].position {
      assert InList(cards, a, l) && InList(cards, b, l);
    }
  }

  /** A new card above every position of a list keeps its positions distinct. */
  lemma AppendedDistinct(cards: map<Id, CardRow>, l: Id, id: Id, row: CardRow)
    requires Distinct(cards, l) && id !in cards
    requires forall a | InList(cards, a, l) :: cards[a].position < row.position
    ensures Distinct(cards[id := row], l)
  {
    var m := cards[id := row];
    forall a, b | InList(m, a, l) && InList(m, b, l) && a != b ensures m[a].position != m[b].position {
      if a == id {
        assert InList(cards, b, l);
      } else if b == id {
        assert InList(cards, a, l);
      } else {
        assert InList(cards, a, l) && InList(cards, b, l);
      }
    }
  }

  /** A new card one past the highest taken position (at `base` for an empty list) keeps
      the list gap-free. */
  lemma AppendedDense(cards: map<Id, CardRow>, l: Id, base: int, id: Id, row: CardRow)
    requires Dense(cards, l, base) && id !in cards && row.listId == l
    requires row.position == base || Occupied(cards, l, row.position - 1)
    ensures Dense(cards[id := row], l, base)
  {
    var m := cards[id := row];
    if row.position != base {
      var b :| InList(cards, b, l) && cards[b].position == row.position - 1;
      assert InList(m, b, l) && m[b].position == row.position - 1;
      assert base <= row.position;
    }
    forall a | InList(m, a, l) && a != id
      ensures base <= m[a].position && (m[a].position > base ==> Occupied(m, l, m[a].position - 1))
    {
      assert InList(cards, a, l) && m[a] == cards[a];
      if m[a].position > base {
        var b :| InList(cards, b, l) && cards[b].position == m[a].position - 1;
        assert InList(m, b, l) && m[b] == cards[b];
      }
    }
  }

  /** A new card one past the highest position of a ranked list (at `base` for an empty
      list) keeps that list ranked. */
  lemma AppendedRanked(cards: map<Id, CardRow>, l: Id, base: int, id: Id, row: CardRow)
    requires Ranked(cards, l, base) && id !in cards && row.listId == l
    requires forall a | InList(cards, a, l) :: cards[a].position < row.position
    requires row.position == base || Occupied(cards, l, row.position - 1)
    ensures Ranked(cards[id := row], l, base)
  {
    AppendedDistinct(cards, l, id, row);
    AppendedDense(cards, l, base, id, row);
  }

  // ---------------------------------------------------------------------------
  // Renumbering: `position := index` for a sequence of card ids

  /** `ids` is a possible answer to `SELECT id FROM cards WHERE list_id = l ORDER BY position`:
      each card of list `l` once, in non-decreasing position. */
  ghost predicate Listing(cards: map<Id, CardRow>, l: Id, ids: seq<Id>) {
    && NoDup(ids)
    && (forall id :: id in ids <==> InList(cards, id, l))
    && SortedBy(ids, Positions(cards))
  }

  /** The cards table after `UPDATE cards SET position = i WHERE id = ids[i]` for
      i = 0, 1, ..., |ids| - 1 in that order. */
  function Reindexed(cards: map<Id, CardRow>, ids: seq<Id>): (r: map<Id, CardRow>)
    ensures r.Keys == cards.Keys
    ensures forall id | id in cards :: r[id] == cards[id].(position := r[id].position)
  {
    if ids == [] then cards
    else SetPosition(Reindexed(cards, ids[..|ids| - 1]), ids[|ids| - 1], |ids| - 1)
  }

  /** A card named in `ids` ends at the LAST index naming it; any other card keeps its row. */
  lemma {:induction false} ReindexedAt(cards: map<Id, CardRow>, ids: seq<Id>, id: Id)
    requires id in cards
    ensures Reindexed(cards, ids)[id] ==
      if id in ids then cards[id].(position := LastIndex(ids, id)) else cards[id]
  {
    if ids != [] {
      var n := |ids| - 1;
      ReindexedAt(cards, ids[..n], id);
      if ids[n] != id {
        assert id in ids <==> id in ids[..n] by {
          if id in ids {
            var k :| 0 <= k < |ids| && ids[k] == id;
            assert ids[..n][k] == id;
          }
        }
      }
    }
  }

  /** Without repetitions, the card `ids[i]` ends at position `i`. */
  lemma ReindexedNoDup(cards: map<Id, CardRow>, ids: seq<Id>, i: int)
    requires NoDup(ids) && 0 <= i < |ids| && ids[i] in cards
    ensures Reindexed(cards, ids)[ids[i]].position == i
  {
    ReindexedAt(cards, ids, ids[i]);
  }

  /** Renumbering exactly the cards of a list, each once, puts `ids[i]` at position `i`. */
  lemma ReindexedPositions(cards: map<Id, CardRow>, l: Id, ids: seq<Id>)
    requires NoDup(ids) && forall id :: id in ids <==> InList(cards, id, l)
    ensures forall i | 0 <= i < |ids| :: ids[i] in cards && Reindexed(cards, ids)[ids[i]].position == i
  {
    forall i | 0 <= i < |ids| ensures ids[i] in cards && Reindexed(cards, ids)[ids[i]].position == i {
      assert ids[i] in ids;
      ReindexedNoDup(cards, ids, i);
    }
  }

  /** Renumbering exactly the cards of a list, each once, ranks that list from 0. */
  lemma ReindexedRanked(cards: map<Id, CardRow>, l: Id, ids: seq<Id>)
    requires NoDup(ids) && forall id :: id in ids <==> InList(cards, id, l)
    ensures forall i | 0 <= i < |ids| :: ids[i] in cards && Reindexed(cards, ids)[ids[i]].position == i
    ensures Ranked(Reindexed(cards, ids), l, 0)
  {
    var r := Reindexed(cards, ids);
    ReindexedPositions(cards, l, ids);
    ReindexedDense(cards, l, ids);
    forall a, b | InList(r, a, l) && InList(r, b, l) && a != b ensures r[a].position != r[b].position {
      assert InList(cards, a, l) && InList(cards, b, l);
      var i :| 0 <= i < |ids| && ids[i] == a;
      var j :| 0 <= j < |ids| && ids[j] == b;
    }
  }

  /** The gap-free half of `ReindexedRanked`. */
  lemma ReindexedDense(cards: map<Id, CardRow>, l: Id, ids: seq<Id>)
    requires NoDup(ids) && forall id :: id in ids <==> InList(cards, id, l)
    ensures Dense(Reindexed(cards, ids), l, 0)
  {
    var r := Reindexed(cards, ids);
    ReindexedPositions(cards, l, ids);
    forall a | InList(r, a, l) ensures 0 <= r[a].position && (r[a].position > 0 ==> Occupied(r, l, r[a].position - 1)) {
      assert InList(cards, a, l);
      var i :| 0 <= i < |ids| && ids[i] == a;
      if i > 0 {
        assert ids[i - 1] in ids;
        assert InList(r, ids[i - 1], l) && r[ids[i - 1]].position == i - 1;
      }
    }
  }

  /** Renumbering a list along an ORDER BY position result ranks the list from 0, puts the
      i-th card at position i, and never swaps two cards' previous order. */
  lemma ListingRenumbered(cards: map<Id, CardRow>, l: Id, ids: seq<Id>)
    requires Listing(cards, l, ids)
    ensures var r := Reindexed(cards, ids);
      && Ranked(r, l, 0)
      && (forall i | 0 <= i < |ids| :: InList(r, ids[i], l) && r[ids[i]].position == i)
      && (forall a, b | InList(r, a, l) && InList(r, b, l) && r[a].position < r[b].position ::
            cards[a].position <= cards[b].position)
  {
    var r := Reindexed(cards, ids);
    ReindexedRanked(cards, l, ids);
    forall i | 0 <= i < |ids| ensures InList(r, ids[i], l) {
      assert ids[i] in ids;
    }
    forall a, b | InList(r, a, l) && InList(r, b, l) && r[a].position < r[b].position
      ensures cards[a].position <= cards[b].position
    {
      assert InList(cards, a, l) && InList(cards, b, l);
      var i :| 0 <= i < |ids| && ids[i] == a;
      var j :| 0 <= j < |ids| && ids[j] == b;
      assert Positions(cards)[ids[i]] <= Positions(cards)[ids[j]];
    }
  }

  /** The facts of `ListingRenumbered` survive a later step that leaves the list's rows alone. */
  lemma RenumberedThenSpared(cards: map<Id, CardRow>, l: Id, ids: seq<Id>, m: map<Id, CardRow>)
    requires Listing(cards, l, ids)
    requires var r := Reindexed(cards, ids);
      && m.Keys == r.Keys && (forall id | id in r :: m[id].listId == r[id].listId)
      && (forall id | InList(r, id, l) :: m[id] == r[id])
    ensures && Ranked(m, l, 0)
      && (forall i | 0 <= i < |ids| :: m[ids[i]].position == i)
      && (forall a, b | InList(m, a, l) && InList(m, b, l) && m[a].position < m[b].position ::
            cards[a].position <= cards[b].position)
  {
    var r := Reindexed(cards, ids);
    ListingRenumbered(cards, l, ids);
    RankedAgree(r, m, l, 0);
    forall a, b | InList(m, a, l) && InList(m, b, l) && m[a].position < m[b].position
      ensures cards[a].position <= cards[b].position
    {
      assert InList(r, a, l) && InList(r, b, l);
    }
  }

  /** The card `id` with its `completed` column set to `done`; unknown ids are left alone. */
  function SetCompleted(cards: map<Id, CardRow>, id: Id, done: bool): (r: map<Id, CardRow>)
    ensures r.Keys == cards.Keys
    ensures id in cards ==> r[id] == cards[id].(completed := done)
    ensures forall k | k in cards && k != id :: r[k] == cards[k]
  {
    if id in cards then cards[id := cards[id].(completed := done)] else cards
  }

  /** NULL for the empty string, the string itself otherwise: how the services store an
      optional text field they receive as a plain string. */
  function NullIfEmpty(s: string): (r: Option<string>)
    ensures r.None? <==> s == ""
    ensures r.Some? ==> r.value == s
  {
    if s == "" then None else Some(s)
  }

  // ---------------------------------------------------------------------------
  // Rows written by the create and update operations

  /** The default lists of a new board, in creation order. */
  const ListTitles: seq<string> := ["Todo", "In-Progress", "QA", "Done"]

  /** The default list rows of board `boardId` under the ids `ids` (the first `|ids|` of
      them): list `i` has title `ListTitles[i]` and position `i + 1`. */
  function DefaultLists(boardId: Id, ids: seq<Id>, now: int): (r: map<Id, ListRow>)
    requires |ids| <= |ListTitles|
    ensures forall id :: id in r <==> id in ids
  {
    if ids == [] then map[]
    else
      var n := |ids| - 1;
      DefaultLists(boardId, ids[..n], now)[ids[n] := ListRow(boardId, ListTitles[n], n + 1, now)]
  }

  /** Distinct list ids get one default list each. */
  lemma {:induction false} DefaultListsAt(boardId: Id, ids: seq<Id>, now: int)
    requires |ids| <= |ListTitles| && NoDup(ids)
    ensures forall i | 0 <= i < |ids| :: DefaultLists(boardId, ids, now)[ids[i]] == ListRow(boardId, ListTitles[i], i + 1, now)
  {
    if ids != [] {
      var n := |ids| - 1;
      var prefix := ids[..n];
      assert NoDup(prefix);
      DefaultListsAt(boardId, prefix, now);
      var before := DefaultLists(boardId, prefix, now);
      assert DefaultLists(boardId, ids, now) == before[ids[n] := ListRow(boardId, ListTitles[n], n + 1, now)];
      forall i | 0 <= i < n
        ensures DefaultLists(boardId, ids, now)[ids[i]] == ListRow(boardId, ListTitles[i], i + 1, now)
      {
        assert ids[i] != ids[n] && prefix[i] == ids[i];
        assert before[prefix[i]] == ListRow(boardId, ListTitles[i], i + 1, now);
      }
    }
  }

  /** The association pairs `(cardId, t)` for the tag ids `t` in `tagIds` that the store
      accepts. */
  function TagPairs(cardId: Id, tagIds: seq<Id>, refusedTags: set<Id>): (pairs: set<(Id, Id)>)
    ensures forall c, t :: (c, t) in pairs <==> c == cardId && t in tagIds && t !in refusedTags
  {
    set t | t in tagIds && t !in refusedTags :: (cardId, t)
  }

  /** The card's title, description and assignee replaced; other cards and columns kept. */
  function Edited(cards: map<Id, CardRow>, cardId: Id, title: string, description: Option<string>,
                  assigneeId: Option<Id>): (r: map<Id, CardRow>)
    ensures r.Keys == cards.Keys
    ensures cardId in cards ==> r[cardId] == cards[cardId].(title := title, description := description, assigneeId := assigneeId)
    ensures forall k | k in cards && k != cardId :: r[k] == cards[k]
  {
    if cardId in cards
    then cards[cardId := cards[cardId].(title := title, description := description, assigneeId := assigneeId)]
    else cards
  }

  /** `DELETE FROM card_tags WHERE card_id = ?` */
  function Untagged(cardTags: set<(Id, Id)>, cardId: Id): (r: set<(Id, Id)>)
    ensures forall c, t :: (c, t) in r <==> (c, t) in cardTags && c != cardId
  {
    set p | p in cardTags && p.0 != cardId
  }

  /** After the delete-then-insert of a card update, the card's tags are exactly the given
      ids the store accepted, and every other card's tags are as before. */
  lemma RetaggedExactly(cardTags: set<(Id, Id)>, cardId: Id, tagIds: seq<Id>, refusedTags: set<Id>, c: Id, t: Id)
    ensures var after := Untagged(cardTags, cardId) + TagPairs(cardId, tagIds, refusedTags);
      && (c == cardId ==> ((c, t) in after <==> t in tagIds && t !in refusedTags))
      && (c != cardId ==> ((c, t) in after <==> (c, t) in cardTags))
  {
  }

  /** The tables of one database. */
  class Db {
    var boards: map<Id, BoardRow>
    var lists: map<Id, ListRow>
    var cards: map<Id, CardRow>
    var tags: map<Id, TagRow>
    var cardTags: set<(Id, Id)>
    var comments: map<Id, CommentRow>
    var users: map<Id, string>

    constructor ()
      ensures boards == map[] && lists == map[] && cards == map[] && tags == map[]
      ensures cardTags == {} && comments == map[] && users == map[]
    {
      boards, lists, cards, tags := map[], map[], map[], map[];
      cardTags, comments, users := {}, map[], map[];
    }

    /** `UPDATE cards SET position = p WHERE id = ?` */
    method UpdatePosition(id: Id, p: int)
      modifies this`cards
      ensures cards == SetPosition(old(cards), id, p)
    {
      cards := SetPosition(cards, id, p);
    }

    /** `UPDATE cards SET list_id = l WHERE id = ?` */
    method UpdateList(id: Id, l: Id)
      modifies this`cards
      ensures cards == SetList(old(cards), id, l)
    {
      cards := SetList(cards, id, l);
    }

    /** `SELECT id FROM cards WHERE list_id = l ORDER BY position` */
    method SelectCardsOfList(l: Id) returns (ids: seq<Id>)
      ensures Listing(cards, l, ids)
    {
      ids := SelectOrdered(CardsOfList(cards, l), Positions(cards));
    }

    /** `UPDATE cards SET position = i WHERE id = ids[i]` for each i in turn. A write to a
        card in `refused` fails and raises, so the statements stop there: `k` of them ran,
        and `k < |ids|` exactly when one failed. */
    method WritePositions(ids: seq<Id>, refused: set<Id>) returns (k: nat)
      modifies this`cards
      ensures k <= |ids|
      ensures forall i | 0 <= i < k :: ids[i] !in refused
      ensures k < |ids| ==> ids[k] in refused
      ensures cards == Reindexed(old(cards), ids[..k])
    {
      k := 0;
      while k < |ids| && ids[k] !in refused
        invariant k <= |ids|
        invariant forall i | 0 <= i < k :: ids[i] !in refused
        invariant cards == Reindexed(old(cards), ids[..k])
      {
        assert ids[..k + 1][..k] == ids[..k];
        UpdatePosition(ids[k], k);
        k := k + 1;
      }
    }

    /** `SELECT max(position) FROM cards WHERE list_id = l`: NULL when the list has no card. */
    method MaxPosition(l: Id) returns (m: Option<int>)
      ensures m.None? <==> CardsOfList(cards, l) == {}
      ensures m.Some? ==> Occupied(cards, l, m.value) && forall a | InList(cards, a, l) :: cards[a].position <= m.value
    {
      m := None;
      var rest := CardsOfList(cards, l);
      while rest != {}
        invariant rest <= CardsOfList(cards, l)
        invariant m.None? <==> rest == CardsOfList(cards, l)
        invariant m.Some? ==> Occupied(cards, l, m.value)
        invariant m.Some? ==> forall a | InList(cards, a, l) && a !in rest :: cards[a].position <= m.value
        decreases rest
      {
        var id :| id in rest;
        if m.None? || m.value < cards[id].position {
          m := Some(cards[id].position);
        }
        rest := rest - {id};
      }
    }

    /** `UPDATE cards SET completed = done WHERE id = ?` */
    method UpdateCompleted(id: Id, done: bool)
      modifies this`cards
      ensures cards == SetCompleted(old(cards), id, done)
    {
      cards := SetCompleted(cards, id, done);
    }

    /** The tag ids associated with card `cardId`. */
    function TagsOf(cardId: Id): (ts: set<Id>)
      reads this
      ensures forall t :: t in ts <==> (cardId, t) in cardTags
    {
      set p | p in cardTags && p.0 == cardId :: p.1
    }
  }
}
