/**
 * The stable sort behind `Array.prototype.sort` (stable since ECMAScript 2019)
 * and behind the backend's ORDER BY clauses, which the model takes in storage
 * order among equal keys.  `le(a, b)` means "a may come before b", that is,
 * the comparator returns a value <= 0 for (a, b).
 */
module Sorting {
  import opened Common

  /** `le` is total and transitive: a comparator consistent enough for sorting. */
  ghost predicate TotalPreorder<T(!new)>(le: (T, T) -> bool)
  {
    (forall a, b :: le(a, b) || le(b, a))
    && (forall a, b, c :: le(a, b) && le(b, c) ==> le(a, c))
  }

  ghost predicate Sorted<T>(s: seq<T>, le: (T, T) -> bool)
  {
    forall i, j :: 0 <= i < j < |s| ==> le(s[i], s[j])
  }

  /** Elements that sort equal to `c`. */
  function Ties<T>(c: T, le: (T, T) -> bool): T -> bool
  {
    x => le(x, c) && le(c, x)
  }

  /** Inserts `x` before the first element it may precede. */
  function Insert<T>(x: T, r: seq<T>, le: (T, T) -> bool): (res: seq<T>)
    ensures multiset(res) == multiset(r) + multiset{x}
    ensures |res| == |r| + 1
  {
    if r == [] || le(x, r[0]) then [x] + r
    else
      assert r == [r[0]] + r[1..];
      [r[0]] + Insert(x, r[1..], le)
  }

  /** Stable insertion sort. */
  function Sort<T>(s: seq<T>, le: (T, T) -> bool): (res: seq<T>)
    ensures multiset(res) == multiset(s)
    ensures |res| == |s|
  {
    if s == [] then []
    else
      assert s == [s[0]] + s[1..];
      Insert(s[0], Sort(s[1..], le), le)
  }

  lemma {:induction false} InsertSorted<T(!new)>(x: T, r: seq<T>, le: (T, T) -> bool)
    requires TotalPreorder(le) && Sorted(r, le)
    ensures Sorted(Insert(x, r, le), le)
  {
    if r == [] || le(x, r[0]) {
    } else {
      var tail := Insert(x, r[1..], le);
      InsertSorted(x, r[1..], le);
      assert le(r[0], x);
      forall j | 0 <= j < |tail|
        ensures le(r[0], tail[j])
      {
        assert tail[j] in multiset(tail);
        assert tail[j] == x || tail[j] in multiset(r[1..]);
        if tail[j] != x {
          var k :| 0 <= k < |r[1..]| && r[1..][k] == tail[j];
          assert r[k + 1] == tail[j];
        }
      }
    }
  }

  /** The sorted result is ordered by `le`. */
  lemma {:induction false} SortSorted<T(!new)>(s: seq<T>, le: (T, T) -> bool)
    requires TotalPreorder(le)
    ensures Sorted(Sort(s, le), le)
  {
    if s != [] {
      SortSorted(s[1..], le);
      InsertSorted(s[0], Sort(s[1..], le), le);
    }
  }

  lemma {:induction false} InsertTies<T(!new)>(x: T, r: seq<T>, le: (T, T) -> bool, c: T)
    requires TotalPreorder(le)
    ensures Filter(Insert(x, r, le), Ties(c, le)) == Filter([x] + r, Ties(c, le))
  {
    var p := Ties(c, le);
    if r == [] || le(x, r[0]) {
    } else {
      var t := Insert(x, r[1..], le);
      InsertTies(x, r[1..], le, c);
      assert !(p(x) && p(r[0]));
      assert ([r[0]] + t)[1..] == t;
      assert ([x] + r)[1..] == r;
      assert ([x] + r[1..])[1..] == r[1..];
      assert Filter(r, p) == (if p(r[0]) then [r[0]] else []) + Filter(r[1..], p);
    }
  }

  /**
   * Stability: the elements that sort equal to any `c` appear in the result
   * in the same relative order as in the input.
   */
  lemma {:induction false} SortStable<T(!new)>(s: seq<T>, le: (T, T) -> bool, c: T)
    requires TotalPreorder(le)
    ensures Filter(Sort(s, le), Ties(c, le)) == Filter(s, Ties(c, le))
  {
    if s != [] {
      var p := Ties(c, le);
      SortStable(s[1..], le, c);
      InsertTies(s[0], Sort(s[1..], le), le, c);
      FilterAppend([s[0]], Sort(s[1..], le), p);
      FilterAppend([s[0]], s[1..], p);
      assert [s[0]] + s[1..] == s;
    }
  }
}
