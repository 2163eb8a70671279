/** Building lookup maps from query rows, as the board aggregators do: grouping rows by a
    key with one append per row (Go's `m[k] = append(m[k], r)`, JavaScript's
    `map.get(k).push(r)`), and indexing rows by a key where a later row overwrites an
    earlier one (`m[r.ID] = r`). A key with no rows reads as the empty group, as a missing
    Go map entry reads as a nil slice and `map.get(k) ?? []` reads as `[]`. */
module Grouping {
  import opened Base

  /** The rows whose key is `k`, in row order. */
  function Group<R>(rows: seq<R>, key: R -> Id, k: Id): (g: seq<R>)
    ensures |g| <= |rows|
  {
    if rows == [] then []
    else Group(rows[..|rows| - 1], key, k) + (if key(rows[|rows| - 1]) == k then [rows[|rows| - 1]] else [])
  }

  /** A group holds exactly the rows with its key. */
  lemma {:induction false} GroupMembers<R>(rows: seq<R>, key: R -> Id, k: Id, r: R)
    ensures r in Group(rows, key, k) <==> r in rows && key(r) == k
  {
    if rows != [] {
      var n := |rows| - 1;
      GroupMembers(rows[..n], key, k, r);
      assert rows == rows[..n] + [rows[n]];
    }
  }

  /** A key no row has has the empty group. */
  lemma {:induction false} GroupEmpty<R>(rows: seq<R>, key: R -> Id, k: Id)
    requires forall i | 0 <= i < |rows| :: key(rows[i]) != k
    ensures Group(rows, key, k) == []
  {
    if rows != [] {
      GroupEmpty(rows[..|rows| - 1], key, k);
    }
  }

  /** A group keeps the row order: whatever precedes what in a group did so among the rows. */
  lemma {:induction false} GroupBefore<R>(rows: seq<R>, key: R -> Id, k: Id, a: R, b: R)
    requires Before(Group(rows, key, k), a, b)
    ensures Before(rows, a, b)
  {
    var n := |rows| - 1;
    var g, g' := Group(rows, key, k), Group(rows[..n], key, k);
    var i, j :| 0 <= i < j < |g| && g[i] == a && g[j] == b;
    if j < |g'| {
      assert g'[i] == a && g'[j] == b;
      GroupBefore(rows[..n], key, k, a, b);
      var p, q :| 0 <= p < q < |rows[..n]| && rows[..n][p] == a && rows[..n][q] == b;
      assert rows[p] == a && rows[q] == b;
    } else {
      assert b == rows[n];
      assert a in g' by { assert g'[i] == a; }
      GroupMembers(rows[..n], key, k, a);
      var p :| 0 <= p < n && rows[..n][p] == a;
      assert rows[p] == a;
    }
  }

  /** `m[k]`, or the empty group for a key `m` does not hold. */
  function Find<R>(m: map<Id, seq<R>>, k: Id): (g: seq<R>)
    ensures k !in m ==> g == []
    ensures k in m ==> g == m[k]
  {
    if k in m then m[k] else []
  }

  /** `m` maps every key to its group. */
  ghost predicate Grouped<R>(m: map<Id, seq<R>>, rows: seq<R>, key: R -> Id) {
    forall k :: Find(m, k) == Group(rows, key, k)
  }

  /** One append per row, in row order. */
  method GroupBy<R>(rows: seq<R>, key: R -> Id) returns (m: map<Id, seq<R>>)
    ensures Grouped(m, rows, key)
  {
    m := map[];
    var i := 0;
    while i < |rows|
      invariant i <= |rows|
      invariant forall k :: Find(m, k) == Group(rows[..i], key, k)
    {
      var r := rows[i];
      m := m[key(r) := Find(m, key(r)) + [r]];
      assert rows[..i + 1][..i] == rows[..i];
      i := i + 1;
    }
    assert rows[..i] == rows;
  }

  /** The last row whose key is `k`, if any. */
  function LastBy<R>(rows: seq<R>, key: R -> Id, k: Id): (r: Option<R>)
    ensures r.Some? ==> r.value in rows && key(r.value) == k
  {
    if rows == [] then None
    else if key(rows[|rows| - 1]) == k then Some(rows[|rows| - 1])
    else LastBy(rows[..|rows| - 1], key, k)
  }

  /** A key is found exactly when some row has it. */
  lemma {:induction false} LastByPresent<R>(rows: seq<R>, key: R -> Id, k: Id)
    ensures LastBy(rows, key, k).Some? <==> exists i | 0 <= i < |rows| :: key(rows[i]) == k
  {
    if rows != [] {
      var n := |rows| - 1;
      LastByPresent(rows[..n], key, k);
      if key(rows[n]) != k {
        if exists i | 0 <= i < |rows| :: key(rows[i]) == k {
          var i :| 0 <= i < |rows| && key(rows[i]) == k;
          assert rows[..n][i] == rows[i];
        }
        if LastBy(rows[..n], key, k).Some? {
          var j :| 0 <= j < n && key(rows[..n][j]) == k;
          assert rows[j] == rows[..n][j];
        }
      }
    }
  }

  /** The row found is one with the key that no later row has. */
  lemma {:induction false} LastByLatest<R>(rows: seq<R>, key: R -> Id, k: Id)
    ensures LastBy(rows, key, k).Some? ==>
      exists i | 0 <= i < |rows| :: rows[i] == LastBy(rows, key, k).value
        && forall j | i < j < |rows| :: key(rows[j]) != k
  {
    if rows != [] {
      var n := |rows| - 1;
      if key(rows[n]) != k && LastBy(rows, key, k).Some? {
        var found := LastBy(rows[..n], key, k);
        assert LastBy(rows, key, k) == found;
        LastByLatest(rows[..n], key, k);
        var i :| 0 <= i < n && rows[..n][i] == found.value
          && forall j | i < j < n :: key(rows[..n][j]) != k;
        assert rows[i] == found.value;
        forall j | i < j < |rows| ensures key(rows[j]) != k {
          if j < n { assert rows[j] == rows[..n][j]; }
        }
      }
    }
  }

  /** `m` maps every key some row has to `val` of the last row with it. */
  ghost predicate Indexed<R, V>(m: map<Id, V>, rows: seq<R>, key: R -> Id, val: R -> V) {
    && (forall k :: k in m <==> LastBy(rows, key, k).Some?)
    && (forall k | k in m :: m[k] == val(LastBy(rows, key, k).value))
  }

  /** `m[k] = val(r)` for each row in order: the last row with a key wins. */
  method IndexBy<R, V(==)>(rows: seq<R>, key: R -> Id, val: R -> V) returns (m: map<Id, V>)
    ensures Indexed(m, rows, key, val)
  {
    m := map[];
    var i := 0;
    while i < |rows|
      invariant i <= |rows|
      invariant forall k :: k in m <==> LastBy(rows[..i], key, k).Some?
      invariant forall k | k in m :: m[k] == val(LastBy(rows[..i], key, k).value)
    {
      m := m[key(rows[i]) := val(rows[i])];
      assert rows[..i + 1][..i] == rows[..i];
      i := i + 1;
    }
    assert rows[..i] == rows;
  }
}
