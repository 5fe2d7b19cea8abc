/**
 * Sequence helpers shared by the services: concatenation of batches,
 * `filter`, and the `findIndex`-based de-duplication that keeps the first
 * occurrence of every key.
 */
module Seqs {

  /** `[].concat(...parts)`: the parts joined in order. */
  function Flatten<T>(ss: seq<seq<T>>): (r: seq<T>)
  {
    if ss == [] then [] else ss[0] + Flatten(ss[1..])
  }

  lemma {:induction false} FlattenAppend<T>(a: seq<seq<T>>, b: seq<seq<T>>)
    ensures Flatten(a + b) == Flatten(a) + Flatten(b)
  {
    if a == [] {
      assert a + b == b;
    } else {
      assert (a + b)[1..] == a[1..] + b;
      FlattenAppend(a[1..], b);
    }
  }

  /** `s.flatMap(f)`: the parts `f` gives for the elements, joined in order. */
  function FlatMap<A, B>(f: A -> seq<B>, s: seq<A>): seq<B>
  {
    if s == [] then [] else f(s[0]) + FlatMap(f, s[1..])
  }

  lemma {:induction false} FlatMapAppend<A, B>(f: A -> seq<B>, a: seq<A>, b: seq<A>)
    ensures FlatMap(f, a + b) == FlatMap(f, a) + FlatMap(f, b)
  {
    if a == [] {
      assert a + b == b;
    } else {
      assert (a + b)[0] == a[0] && (a + b)[1..] == a[1..] + b;
      FlatMapAppend(f, a[1..], b);
    }
  }

  /** `s.filter(p)`. */
  function Filter<T(!new)>(s: seq<T>, p: T -> bool): (r: seq<T>)
    ensures |r| <= |s|
    ensures forall x :: x in r <==> x in s && p(x)
  {
    if s == [] then [] else (if p(s[0]) then [s[0]] else []) + Filter(s[1..], p)
  }

  lemma {:induction false} FilterAppend<T(!new)>(a: seq<T>, b: seq<T>, p: T -> bool)
    ensures Filter(a + b, p) == Filter(a, p) + Filter(b, p)
  {
    if a == [] {
      assert a + b == b;
    } else {
      assert (a + b)[1..] == a[1..] + b;
      FilterAppend(a[1..], b, p);
    }
  }

  /** The keys of the elements of `s`. */
  ghost function KeysOf<T, K>(s: seq<T>, key: T -> K): set<K>
  {
    set x | x in s :: key(x)
  }

  /**
   * `s.findIndex(x => key(x) === k)`: the index of the first element with
   * key `k`, or -1 when there is none.
   */
  function FindIndex<T, K(==)>(s: seq<T>, key: T -> K, k: K): (r: int)
    ensures -1 <= r < |s|
    ensures r == -1 <==> forall i :: 0 <= i < |s| ==> key(s[i]) != k
    ensures r >= 0 ==> key(s[r]) == k && forall i :: 0 <= i < r ==> key(s[i]) != k
  {
    if s == [] then -1
    else if key(s[0]) == k then 0
    else
      var j := FindIndex(s[1..], key, k);
      if j == -1 then -1 else j + 1
  }

  /**
   * `s.filter((x, idx) => s.findIndex(y => key(y) === key(x)) === idx)`,
   * scanning from index `i`.
   */
  function KeepFirstFrom<T, K(==)>(s: seq<T>, key: T -> K, i: nat): (r: seq<T>)
    requires i <= |s|
    decreases |s| - i
  {
    if i == |s| then []
    else if FindIndex(s, key, key(s[i])) == i then [s[i]] + KeepFirstFrom(s, key, i + 1)
    else KeepFirstFrom(s, key, i + 1)
  }

  /** Every kept element is the first of its key, at index `i` or later. */
  lemma {:induction false} KeptAreFirst<T, K>(s: seq<T>, key: T -> K, i: nat)
    requires i <= |s|
    decreases |s| - i
    ensures forall a :: 0 <= a < |KeepFirstFrom(s, key, i)| ==>
              var x := KeepFirstFrom(s, key, i)[a];
              i <= FindIndex(s, key, key(x)) && s[FindIndex(s, key, key(x))] == x
  {
    if i < |s| {
      KeptAreFirst(s, key, i + 1);
    }
  }

  lemma {:induction false} KeptKeysDistinct<T, K>(s: seq<T>, key: T -> K, i: nat)
    requires i <= |s|
    decreases |s| - i
    ensures forall a, b :: 0 <= a < b < |KeepFirstFrom(s, key, i)| ==>
              key(KeepFirstFrom(s, key, i)[a]) != key(KeepFirstFrom(s, key, i)[b])
  {
    if i < |s| {
      KeptKeysDistinct(s, key, i + 1);
      KeptAreFirst(s, key, i + 1);
      var rest := KeepFirstFrom(s, key, i + 1);
      if FindIndex(s, key, key(s[i])) == i {
        var r := [s[i]] + rest;
        forall a, b | 0 <= a < b < |r| ensures key(r[a]) != key(r[b]) {
          assert r[b] == rest[b - 1];
          assert i + 1 <= FindIndex(s, key, key(rest[b - 1]));
          if a > 0 {
            assert r[a] == rest[a - 1];
            assert key(rest[a - 1]) != key(rest[b - 1]);
          } else {
            assert r[a] == s[i];
            assert FindIndex(s, key, key(s[i])) == i;
            assert key(s[i]) != key(rest[b - 1]);
          }
        }
        assert KeepFirstFrom(s, key, i) == r;
      }
    }
  }

  lemma {:induction false} KeptCover<T, K>(s: seq<T>, key: T -> K, i: nat, j: nat)
    requires i <= j < |s| && FindIndex(s, key, key(s[j])) >= i
    decreases |s| - i
    ensures s[FindIndex(s, key, key(s[j]))] in KeepFirstFrom(s, key, i)
  {
    var f := FindIndex(s, key, key(s[j]));
    if f == i {
      assert FindIndex(s, key, key(s[i])) == i;
    } else {
      KeptCover(s, key, i + 1, j);
    }
  }

  /** The kept elements appear in the order they have in `s`. */
  lemma {:induction false} KeptIsSubseq<T, K>(s: seq<T>, key: T -> K, i: nat)
    requires i <= |s|
    decreases |s| - i
    ensures IsSubseq(KeepFirstFrom(s, key, i), s[i..])
  {
    if i < |s| {
      KeptIsSubseq(s, key, i + 1);
      var rest := KeepFirstFrom(s, key, i + 1);
      assert s[i..][0] == s[i] && s[i..][1..] == s[i + 1..];
      if FindIndex(s, key, key(s[i])) == i {
        var r := [s[i]] + rest;
        assert r[0] == s[i] && r[1..] == rest;
      }
    }
  }

  /** De-duplication by key that keeps, for every key, its first occurrence. */
  function KeepFirst<T, K(==)>(s: seq<T>, key: T -> K): (r: seq<T>)
    ensures forall a :: 0 <= a < |r| ==>
              0 <= FindIndex(s, key, key(r[a])) && s[FindIndex(s, key, key(r[a]))] == r[a]
    ensures forall a, b :: 0 <= a < b < |r| ==> key(r[a]) != key(r[b])
    ensures forall j :: 0 <= j < |s| ==> s[FindIndex(s, key, key(s[j]))] in r
  {
    KeptAreFirst(s, key, 0);
    KeptKeysDistinct(s, key, 0);
    forall j | 0 <= j < |s| ensures s[FindIndex(s, key, key(s[j]))] in KeepFirstFrom(s, key, 0) {
      KeptCover(s, key, 0, j);
    }
    KeepFirstFrom(s, key, 0)
  }

  /** The de-duplication keeps the order of `s`, and the first element is always kept. */
  lemma KeepFirstOrder<T, K>(s: seq<T>, key: T -> K)
    ensures IsSubseq(KeepFirst(s, key), s)
    ensures s != [] ==> KeepFirst(s, key) != [] && KeepFirst(s, key)[0] == s[0]
  {
    KeptIsSubseq(s, key, 0);
    assert s[0..] == s;
    assert s != [] ==> FindIndex(s, key, key(s[0])) == 0;
  }

  /** `s` can be obtained from `t` by deleting elements. */
  ghost predicate IsSubseq<T>(s: seq<T>, t: seq<T>)
  {
    s == [] || (t != [] && ((s[0] == t[0] && IsSubseq(s[1..], t[1..])) || IsSubseq(s, t[1..])))
  }

  lemma {:induction false} FilterIsSubseq<T(!new)>(s: seq<T>, p: T -> bool)
    ensures IsSubseq(Filter(s, p), s)
  {
    if s != [] {
      FilterIsSubseq(s[1..], p);
      if p(s[0]) {
        assert Filter(s, p) == [s[0]] + Filter(s[1..], p);
      } else {
        assert Filter(s, p) == Filter(s[1..], p);
      }
    }
  }

  /** The number of elements of `s` whose key is `k`. */
  function CountKey<T, K(==)>(s: seq<T>, key: T -> K, k: K): (n: nat)
    ensures n <= |s|
    ensures n == 0 <==> FindIndex(s, key, k) == -1
  {
    if s == [] then 0 else (if key(s[0]) == k then 1 else 0) + CountKey(s[1..], key, k)
  }

  /** A non-empty set has an element. */
  lemma NonEmptyHasElement<T>(s: set<T>)
    ensures s != {} ==> exists x :: x in s
  {
    if forall x :: x !in s {
      assert s == {};
    }
  }

  /** An element of a non-empty set, for code that picks one with `:|`. */
  lemma Pick<T>(s: set<T>) returns (x: T)
    requires s != {}
    ensures x in s
  {
    NonEmptyHasElement(s);
    x :| x in s;
  }
}
