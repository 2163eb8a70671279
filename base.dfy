/** Shared vocabulary of the model: identifiers, optional values and results,
    and the string and sequence operations of JavaScript that several modules use. */
module Base {

  /** Every entity (board, list, card, tag, comment, user) is identified by an opaque string. */
  type Id = string

  datatype Option<+T> = None | Some(value: T)

  datatype Result<+T, +E> = Ok(value: T) | Err(error: E)

  /** `s.startsWith(prefix)` */
  predicate StartsWith(s: string, prefix: string) {
    |prefix| <= |s| && s[..|prefix|] == prefix
  }

  /** The remainder of `s` after a prefix it starts with; what both `s.replace(prefix, "")`
      and `s.substring(|prefix|)` give when `s` starts with `prefix`. */
  function DropPrefix(s: string, prefix: string): (r: string)
    requires StartsWith(s, prefix)
    ensures prefix + r == s
    ensures |r| == |s| - |prefix|
  {
    s[|prefix|..]
  }

  /** `s.replace(p, "")` for a string pattern: removes the FIRST occurrence of `p`, if any. */
  function ReplaceFirst(s: string, p: string): (r: string)
    requires p != []
    ensures StartsWith(s, p) ==> r == DropPrefix(s, p)
    ensures |r| <= |s|
    decreases |s|
  {
    if StartsWith(s, p) then s[|p|..]
    else if s == [] then []
    else [s[0]] + ReplaceFirst(s[1..], p)
  }

  /** `p` occurs in `s` starting at index `i`. */
  predicate OccursAt(s: string, p: string, i: int) {
    0 <= i && i + |p| <= |s| && s[i..i + |p|] == p
  }

  /** An occurrence in the tail of a string is an occurrence one index later in the string. */
  lemma OccursInTail(s: string, p: string, i: int)
    requires s != [] && 0 <= i
    ensures OccursAt(s[1..], p, i) <==> OccursAt(s, p, i + 1)
  {
    if 0 <= i && i + |p| <= |s| - 1 {
      assert s[1..][i..i + |p|] == s[i + 1..i + 1 + |p|];
    }
  }

  /** `s.replace(p, "")` leaves a string in which `p` does not occur unchanged. */
  lemma {:induction false} ReplaceFirstAbsent(s: string, p: string)
    requires p != [] && forall i :: !OccursAt(s, p, i)
    ensures ReplaceFirst(s, p) == s
    decreases |s|
  {
    assert !OccursAt(s, p, 0);
    if s != [] {
      forall i | 0 <= i ensures !OccursAt(s[1..], p, i) {
        OccursInTail(s, p, i);
      }
      ReplaceFirstAbsent(s[1..], p);
    }
  }

  /** `s.replace(p, "")` removes the occurrence of `p` at the least index `k` holding one,
      and keeps everything before and after it. */
  lemma {:induction false} ReplaceFirstAt(s: string, p: string, k: int)
    requires p != [] && OccursAt(s, p, k)
    requires forall j | 0 <= j < k :: !OccursAt(s, p, j)
    ensures ReplaceFirst(s, p) == s[..k] + s[k + |p|..]
    decreases k
  {
    if k == 0 {
      assert StartsWith(s, p);
    } else {
      assert !OccursAt(s, p, 0);
      OccursInTail(s, p, k - 1);
      forall j | 0 <= j < k - 1 ensures !OccursAt(s[1..], p, j) {
        OccursInTail(s, p, j);
      }
      ReplaceFirstAt(s[1..], p, k - 1);
      assert [s[0]] + s[1..][..k - 1] == s[..k];
      assert s[1..][k - 1 + |p|..] == s[k + |p|..];
    }
  }

  /** `a.map(f)` */
  function Mapped<T, U>(s: seq<T>, f: T -> U): (r: seq<U>)
    ensures |r| == |s| && forall i | 0 <= i < |s| :: r[i] == f(s[i])
  {
    seq(|s|, i requires 0 <= i < |s| => f(s[i]))
  }

  /** `a.map(f)` on a non-empty array: `f` of the first element, then the rest mapped. */
  lemma MappedTail<T, U>(s: seq<T>, f: T -> U)
    requires s != []
    ensures Mapped(s, f)[1..] == Mapped(s[1..], f)
  {
  }

  /** No element occurs twice. */
  predicate NoDup<T(==)>(s: seq<T>) {
    forall i, j | 0 <= i < j < |s| :: s[i] != s[j]
  }

  /** `s.indexOf(x)`: the first index holding `x`, or -1. */
  function IndexOf<T(==)>(s: seq<T>, x: T): (r: int)
    ensures -1 <= r < |s|
    ensures r == -1 <==> x !in s
    ensures 0 <= r ==> s[r] == x && x !in s[..r]
  {
    if s == [] then -1
    else if s[0] == x then 0
    else var k := IndexOf(s[1..], x); if k == -1 then -1 else k + 1
  }

  /** Without its first element, a sequence free of repetitions stays so and no longer
      holds that element. */
  lemma NoDupTail<T>(s: seq<T>)
    requires NoDup(s) && s != []
    ensures NoDup(s[1..]) && s[0] !in s[1..]
  {
    forall j | 0 <= j < |s| - 1 ensures s[1..][j] != s[0] {
      assert s[j + 1] != s[0];
    }
  }

  /** The last index holding `x`, or -1. */
  function LastIndex<T(==)>(s: seq<T>, x: T): (r: int)
    ensures -1 <= r < |s|
    ensures r == -1 <==> x !in s
    ensures 0 <= r ==> s[r] == x && forall k | r < k < |s| :: s[k] != x
  {
    if s == [] then -1
    else if s[|s| - 1] == x then |s| - 1
    else LastIndex(s[..|s| - 1], x)
  }

  /** The index at which `a.splice(start, ...)` begins on an array of length `len`:
      a negative start counts from the end, and the result is clamped to `0..len`. */
  function SpliceStart(len: nat, start: int): (r: nat)
    ensures r <= len
    ensures 0 <= start <= len ==> r == start
    ensures start > len ==> r == len
  {
    if start < 0 then (if len + start < 0 then 0 else len + start)
    else if start > len then len
    else start
  }

  /** `a.splice(i, 1)` on a copy: the sequence without the element at index `i`. */
  function RemoveAt<T>(s: seq<T>, i: nat): (r: seq<T>)
    requires i < |s|
    ensures |r| == |s| - 1
    ensures forall k | 0 <= k < i :: r[k] == s[k]
    ensures forall k | i <= k < |r| :: r[k] == s[k + 1]
  {
    s[..i] + s[i + 1..]
  }

  /** `a.splice(start, 0, x)` on a copy: `x` inserted at the clamped start index. */
  function InsertAt<T>(s: seq<T>, start: int, x: T): (r: seq<T>)
    ensures |r| == |s| + 1
    ensures r[SpliceStart(|s|, start)] == x
    ensures forall k | 0 <= k < SpliceStart(|s|, start) :: r[k] == s[k]
    ensures forall k | SpliceStart(|s|, start) < k < |r| :: r[k] == s[k - 1]
  {
    var i := SpliceStart(|s|, start);
    s[..i] + [x] + s[i..]
  }

  /** Removing the element at `i` removes one occurrence of it. */
  lemma RemoveAtMultiset<T>(s: seq<T>, i: nat)
    requires i < |s|
    ensures multiset(RemoveAt(s, i)) == multiset(s) - multiset{s[i]}
  {
    assert s == s[..i] + [s[i]] + s[i + 1..];
  }

  /** Inserting `x` adds one occurrence of it. */
  lemma InsertAtMultiset<T>(s: seq<T>, start: int, x: T)
    ensures multiset(InsertAt(s, start, x)) == multiset(s) + multiset{x}
  {
    var k := SpliceStart(|s|, start);
    assert s == s[..k] + s[k..];
  }

  /** Removing an element never reorders the others. */
  lemma RemoveAtBefore<T>(s: seq<T>, i: nat, a: T, b: T)
    requires i < |s| && Before(RemoveAt(s, i), a, b)
    ensures Before(s, a, b)
  {
    var r := RemoveAt(s, i);
    var p, q :| 0 <= p < q < |r| && r[p] == a && r[q] == b;
    var p', q' := if p < i then p else p + 1, if q < i then q else q + 1;
    assert s[p'] == a && s[q'] == b;
  }

  /** `a.filter(y => y !== x)` */
  function Without<T(==,!new)>(s: seq<T>, x: T): (r: seq<T>)
    ensures x !in r
    ensures forall y :: y in r <==> y in s && y != x
    ensures |r| <= |s|
  {
    if s == [] then []
    else if s[0] == x then Without(s[1..], x)
    else [s[0]] + Without(s[1..], x)
  }

  /** Filtering out an element that occurs once shortens the sequence by one. */
  lemma {:induction false} WithoutRemovesOne<T(!new)>(s: seq<T>, x: T, i: int)
    requires NoDup(s) && 0 <= i < |s| && s[i] == x
    ensures |Without(s, x)| == |s| - 1
  {
    if i == 0 {
      assert x !in s[1..] by {
        forall k | 0 <= k < |s| - 1 ensures s[1..][k] != x {
          assert s[k + 1] != s[0];
        }
      }
      WithoutAbsent(s[1..], x);
    } else {
      WithoutRemovesOne(s[1..], x, i - 1);
    }
  }

  /** Filtering out an element that does not occur changes nothing. */
  lemma {:induction false} WithoutAbsent<T(!new)>(s: seq<T>, x: T)
    requires x !in s
    ensures Without(s, x) == s
  {
    if s != [] {
      WithoutAbsent(s[1..], x);
    }
  }

  /** Removing an element keeps the others in their relative order: `Without(s, x)` is a
      subsequence of `s`, and an element that occurs once in `s` occurs once in the result. */
  lemma {:induction false} WithoutNoDup<T(!new)>(s: seq<T>, x: T)
    requires NoDup(s)
    ensures NoDup(Without(s, x))
  {
    if s != [] {
      WithoutNoDup(s[1..], x);
      if s[0] != x {
        assert s[0] !in s[1..] by {
          forall k | 0 <= k < |s| - 1 ensures s[1..][k] != s[0] {
            assert s[k + 1] != s[0];
          }
        }
        assert s[0] !in Without(s[1..], x);
      }
    }
  }

  /** `a` occurs at an earlier index of `s` than `b`. */
  ghost predicate Before<T>(s: seq<T>, a: T, b: T) {
    exists i, j :: 0 <= i < j < |s| && s[i] == a && s[j] == b
  }

  /** Filtering an element out never reorders the remaining ones. */
  lemma {:induction false} WithoutBefore<T(!new)>(s: seq<T>, x: T, a: T, b: T)
    requires Before(Without(s, x), a, b)
    ensures Before(s, a, b)
  {
    var w := Without(s, x);
    var i, j :| 0 <= i < j < |w| && w[i] == a && w[j] == b;
    var t := Without(s[1..], x);
    if s[0] == x {
      WithoutBefore(s[1..], x, a, b);
      var p, q :| 0 <= p < q < |s[1..]| && s[1..][p] == a && s[1..][q] == b;
      assert s[p + 1] == a && s[q + 1] == b;
    } else if i == 0 {
      assert b in t by { assert t[j - 1] == b; }
      var q :| 0 <= q < |s[1..]| && s[1..][q] == b;
      assert s[0] == a && s[q + 1] == b;
    } else {
      assert t[i - 1] == a && t[j - 1] == b;
      WithoutBefore(s[1..], x, a, b);
      var p, q :| 0 <= p < q < |s[1..]| && s[1..][p] == a && s[1..][q] == b;
      assert s[p + 1] == a && s[q + 1] == b;
    }
  }

  /** Inserting an element never reorders the others. */
  lemma InsertAtBefore<T>(s: seq<T>, start: int, x: T, a: T, b: T)
    requires a != x && b != x && Before(InsertAt(s, start, x), a, b)
    ensures Before(s, a, b)
  {
    var r, k := InsertAt(s, start, x), SpliceStart(|s|, start);
    var i, j :| 0 <= i < j < |r| && r[i] == a && r[j] == b;
    var i', j' := if i < k then i else i - 1, if j < k then j else j - 1;
    assert s[i'] == a && s[j'] == b;
  }

  /** The elements after `splice(start, 0, x)` are the old ones and `x`. */
  lemma InsertAtMembers<T>(s: seq<T>, start: int, x: T, y: T)
    ensures y in InsertAt(s, start, x) <==> y in s || y == x
  {
    var r, k := InsertAt(s, start, x), SpliceStart(|s|, start);
    if y in s {
      var i :| 0 <= i < |s| && s[i] == y;
      assert r[if i < k then i else i + 1] == y;
    }
    if y in r && y != x {
      var i :| 0 <= i < |r| && r[i] == y;
      assert s[if i < k then i else i - 1] == y;
    }
  }

  /** Inserting an element that is not there keeps a sequence free of repetitions. */
  lemma InsertAtNoDup<T>(s: seq<T>, start: int, x: T)
    requires NoDup(s) && x !in s
    ensures NoDup(InsertAt(s, start, x))
  {
    var r, k := InsertAt(s, start, x), SpliceStart(|s|, start);
    forall i, j | 0 <= i < j < |r| ensures r[i] != r[j] {
      if i != k && j != k {
        var i', j' := if i < k then i else i - 1, if j < k then j else j - 1;
        assert r[i] == s[i'] && r[j] == s[j'];
      } else if i == k {
        assert r[j] == s[j - 1];
      } else {
        assert r[i] == s[i];
      }
    }
  }
}
