/**
 * `Array.prototype.sort` with a comparator: an insertion sort on a total
 * preorder, and the newest-first order the in-memory caches keep.
 */
module Sorting {
  import opened Wrappers
  import opened Text
  import opened Upstream

  /** `le` compares every pair and is transitive: what a sort comparator needs. */
  ghost predicate IsTotalPreorder<T(!new)>(le: (T, T) -> bool)
  {
    (forall a, b :: le(a, b) || le(b, a))
    && (forall a, b, c :: le(a, b) && le(b, c) ==> le(a, c))
  }

  ghost predicate SortedBy<T>(s: seq<T>, le: (T, T) -> bool)
  {
    forall i, j :: 0 <= i < j < |s| ==> le(s[i], s[j])
  }

  /** Inserts `x` before the first element it may precede, so earlier input stays ahead of ties. */
  function Insert<T>(x: T, s: seq<T>, le: (T, T) -> bool): (r: seq<T>)
    ensures multiset(r) == multiset(s) + multiset{x}
    ensures |r| == |s| + 1
  {
    if s == [] then [x]
    else if le(x, s[0]) then [x] + s
    else
      assert s == [s[0]] + s[1..];
      [s[0]] + Insert(x, s[1..], le)
  }

  /** Insertion sort by `le`. */
  function SortBy<T>(s: seq<T>, le: (T, T) -> bool): (r: seq<T>)
    ensures multiset(r) == multiset(s)
    ensures |r| == |s|
  {
    if s == [] then []
    else
      assert s == [s[0]] + s[1..];
      Insert(s[0], SortBy(s[1..], le), le)
  }

  /** What every element of `s` and `x` itself may follow, every element of the insertion may follow. */
  lemma {:induction false} InsertLowerBound<T>(y: T, x: T, s: seq<T>, le: (T, T) -> bool)
    requires le(y, x) && forall k :: 0 <= k < |s| ==> le(y, s[k])
    ensures forall k :: 0 <= k < |Insert(x, s, le)| ==> le(y, Insert(x, s, le)[k])
  {
    if s != [] && !le(x, s[0]) {
      var rest := s[1..];
      assert forall k :: 0 <= k < |rest| ==> rest[k] == s[k + 1];
      InsertLowerBound(y, x, rest, le);
      var r := Insert(x, s, le);
      forall k | 0 <= k < |r| ensures le(y, r[k]) {
        if k > 0 {
          assert r[k] == Insert(x, rest, le)[k - 1];
        }
      }
    }
  }

  lemma {:induction false} InsertSorted<T(!new)>(x: T, s: seq<T>, le: (T, T) -> bool)
    requires IsTotalPreorder(le) && SortedBy(s, le)
    ensures SortedBy(Insert(x, s, le), le)
  {
    if s != [] && !le(x, s[0]) {
      var rest := s[1..];
      assert SortedBy(rest, le) by {
        forall i, j | 0 <= i < j < |rest| ensures le(rest[i], rest[j]) {
          assert rest[i] == s[i + 1] && rest[j] == s[j + 1];
        }
      }
      InsertSorted(x, rest, le);
      assert le(s[0], x);
      assert forall k :: 0 <= k < |rest| ==> rest[k] == s[k + 1];
      InsertLowerBound(s[0], x, rest, le);
      var r := Insert(x, s, le);
      var t := Insert(x, rest, le);
      forall i, j | 0 <= i < j < |r| ensures le(r[i], r[j]) {
        if i == 0 {
          assert r[j] == t[j - 1];
        } else {
          assert r[i] == t[i - 1] && r[j] == t[j - 1];
        }
      }
    }
  }

  /** The sort puts its output in `le` order. */
  lemma {:induction false} SortBySorted<T(!new)>(s: seq<T>, le: (T, T) -> bool)
    requires IsTotalPreorder(le)
    ensures SortedBy(SortBy(s, le), le)
  {
    if s != [] {
      SortBySorted(s[1..], le);
      InsertSorted(s[0], SortBy(s[1..], le), le);
    }
  }

  /** The instant a record is sorted by: `new Date(x.datetime || x.date)`, kept as text. */
  function SortKey(d: Doc): string
  {
    match Or(d.datetime, d.date)
    case Some(s) => s
    case None => ""
  }

  /** `(a, b) => key(b) - key(a)` used as "a may stay before b": newest first. */
  predicate NewestFirst(a: Doc, b: Doc)
  {
    !LexLess(SortKey(a), SortKey(b))
  }

  lemma NewestFirstIsTotalPreorder()
    ensures IsTotalPreorder(NewestFirst)
  {
    forall a: Doc, b: Doc ensures NewestFirst(a, b) || NewestFirst(b, a) {
      LexLessTrichotomy(SortKey(a), SortKey(b));
      LexLessIrreflexive(SortKey(a));
      if LexLess(SortKey(a), SortKey(b)) && LexLess(SortKey(b), SortKey(a)) {
        LexLessTransitive(SortKey(a), SortKey(b), SortKey(a));
      }
    }
    forall a: Doc, b: Doc, c: Doc | NewestFirst(a, b) && NewestFirst(b, c)
      ensures NewestFirst(a, c)
    {
      if LexLess(SortKey(a), SortKey(c)) {
        LexLessTrichotomy(SortKey(b), SortKey(c));
        if LexLess(SortKey(c), SortKey(b)) {
          LexLessTransitive(SortKey(a), SortKey(c), SortKey(b));
        }
      }
    }
  }

  /** The in-memory caches' `sort((a, b) => date(b) - date(a))`. */
  function SortNewestFirst(s: seq<Doc>): (r: seq<Doc>)
    ensures multiset(r) == multiset(s)
    ensures SortedBy(r, NewestFirst)
  {
    NewestFirstIsTotalPreorder();
    SortBySorted(s, NewestFirst);
    SortBy(s, NewestFirst)
  }
}
