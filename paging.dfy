/**
 * The batched full listing: which offsets a full load visits, how its
 * for-loop groups them into concurrent batches, and what a batch yields
 * under `Promise.allSettled` and under `Promise.all`.
 */
module Paging {
  import opened Wrappers
  import opened Seqs
  import opened Upstream

  /** The offsets `from, from + 30, ...` below `total`: the `start` values of a listing loop. */
  function Offsets(from: nat, total: nat): (r: seq<nat>)
    decreases total - from
  {
    if from >= total then [] else [from] + Offsets(from + PageSize, total)
  }

  /** An offset is visited exactly when it is below the total and on the 30-record grid. */
  lemma {:induction false} OffsetsMembership(from: nat, total: nat, x: nat)
    decreases total - from
    ensures x in Offsets(from, total) <==> from <= x < total && (x - from) % PageSize == 0
  {
    if from < total {
      OffsetsMembership(from + PageSize, total, x);
    }
  }

  /** Offsets strictly increase, so no page is requested twice. */
  lemma {:induction false} OffsetsIncreasing(from: nat, total: nat)
    decreases total - from
    ensures forall i, j :: 0 <= i < j < |Offsets(from, total)| ==> Offsets(from, total)[i] < Offsets(from, total)[j]
    ensures forall x :: x in Offsets(from, total) ==> from <= x
  {
    if from < total {
      OffsetsIncreasing(from + PageSize, total);
      var r := Offsets(from, total);
      var r' := Offsets(from + PageSize, total);
      forall i, j | 0 <= i < j < |r| ensures r[i] < r[j] {
        assert r[j] == r'[j - 1];
        assert r'[j - 1] in r';
        if i > 0 {
          assert r[i] == r'[i - 1];
        }
      }
    }
  }

  /** `ceil((total - from) / 30)` offsets. */
  lemma {:induction false} OffsetsCount(from: nat, total: nat)
    decreases total - from
    ensures from <= total ==> |Offsets(from, total)| == (total - from + PageSize - 1) / PageSize
  {
    if from < total {
      OffsetsCount(from + PageSize, total);
    }
  }

  /** `s` cut into consecutive groups of `n`, the last one possibly shorter. */
  function Chunks<T>(s: seq<T>, n: nat): (r: seq<seq<T>>)
    requires n > 0
    decreases |s|
  {
    if s == [] then [] else if |s| <= n then [s] else [s[..n]] + Chunks(s[n..], n)
  }

  /** Joining the groups gives back the sequence; every group has 1 to `n` elements, all but the last exactly `n`. */
  lemma {:induction false} ChunksShape<T>(s: seq<T>, n: nat)
    requires n > 0
    decreases |s|
    ensures Flatten(Chunks(s, n)) == s
    ensures forall i :: 0 <= i < |Chunks(s, n)| ==> 1 <= |Chunks(s, n)[i]| <= n
    ensures forall i :: 0 <= i < |Chunks(s, n)| - 1 ==> |Chunks(s, n)[i]| == n
  {
    if |s| > n {
      ChunksShape(s[n..], n);
      assert s == s[..n] + s[n..];
      assert Chunks(s, n)[1..] == Chunks(s[n..], n);
    } else if s != [] {
      assert Flatten([s]) == s + Flatten([]);
    }
  }

  /** `s` is a whole number of groups of `n`. */
  ghost predicate FullGroups<T>(s: seq<T>, n: nat)
    requires n > 0
    decreases |s|
  {
    s == [] || (|s| >= n && FullGroups(s[n..], n))
  }

  lemma {:induction false} FullGroupsAppend<T>(a: seq<T>, c: seq<T>, n: nat)
    requires n > 0 && FullGroups(a, n) && |c| == n
    decreases |a|
    ensures FullGroups(a + c, n)
  {
    if a == [] {
      assert (a + c)[n..] == [];
    } else {
      FullGroupsAppend(a[n..], c, n);
      assert (a + c)[n..] == a[n..] + c;
    }
  }

  /** Appending a group to a whole number of groups appends it to the chunking. */
  lemma {:induction false} ChunksAppend<T>(a: seq<T>, c: seq<T>, n: nat)
    requires n > 0 && FullGroups(a, n) && 1 <= |c| <= n
    decreases |a|
    ensures Chunks(a + c, n) == Chunks(a, n) + [c]
  {
    if a == [] {
      assert a + c == c;
    } else if |a| == n {
      assert (a + c)[..n] == a && (a + c)[n..] == c;
      assert Chunks(a, n) == [a];
    } else {
      ChunksAppend(a[n..], c, n);
      assert (a + c)[..n] == a[..n] && (a + c)[n..] == a[n..] + c;
    }
  }

  /** Visiting offset `start` moves it from the remaining offsets to the visited ones. */
  lemma VisitOffset(visited: seq<nat>, start: nat, total: nat, all: seq<nat>)
    requires start < total && visited + Offsets(start, total) == all
    ensures (visited + [start]) + Offsets(start + PageSize, total) == all
  {
    assert Offsets(start, total) == [start] + Offsets(start + PageSize, total);
  }

  /**
   * The full load's for-loop over `start` (`start += 30`), with its pending
   * buffer: each offset is pushed, and the buffer is flushed as one
   * concurrent batch when it holds `size` offsets or the offset is the last
   * page (`start + limit >= total`).
   */
  method PlanBatches(from: nat, total: nat, size: nat) returns (batches: seq<seq<nat>>)
    requires size > 0
    ensures batches == Chunks(Offsets(from, total), size)
  {
    var start := from;
    var pending: seq<nat> := [];
    batches := [];
    ghost var flushed: seq<nat> := [];
    while start < total
      invariant flushed + pending + Offsets(start, total) == Offsets(from, total)
      invariant batches == Chunks(flushed, size)
      invariant |pending| < size
      invariant start < total ==> FullGroups(flushed, size)
      invariant pending != [] ==> start < total
      decreases total - start
    {
      assert flushed + pending + [start] == flushed + (pending + [start]);
      VisitOffset(flushed + pending, start, total, Offsets(from, total));
      pending := pending + [start];
      if |pending| == size || start + PageSize >= total {
        ChunksAppend(flushed, pending, size);
        if |pending| == size {
          FullGroupsAppend(flushed, pending, size);
        }
        batches := batches + [pending];
        flushed := flushed + pending;
        pending := [];
        assert flushed + pending == flushed;
      }
      start := start + PageSize;
    }
    assert flushed + pending + Offsets(start, total) == flushed;
  }

  /** How a batch's concurrent requests are awaited. */
  datatype Settle =
    | AllSettled    // `Promise.allSettled`: failed requests are skipped
    | AllOrNothing  // `Promise.all`: one failure rejects the whole batch

  /** The records of the fulfilled responses, in request order, read with `norm`. */
  function FulfilledDocs(rs: seq<Response>, norm: Body -> seq<Doc>): seq<Doc>
  {
    if rs == [] then []
    else (if rs[0].Ok? then norm(rs[0].body) else []) + FulfilledDocs(rs[1..], norm)
  }

  /** What one batch contributes: `None` when `Promise.all` rejects. */
  function SettleBatch(rs: seq<Response>, norm: Body -> seq<Doc>, settle: Settle): (r: Option<seq<Doc>>)
  {
    if settle.AllOrNothing? && exists i :: 0 <= i < |rs| && rs[i].Failed? then None
    else Some(FulfilledDocs(rs, norm))
  }

  /** `allSettled` never rejects, `all` rejects exactly when a request failed, and they agree otherwise. */
  lemma SettleBatchCases(rs: seq<Response>, norm: Body -> seq<Doc>)
    ensures SettleBatch(rs, norm, AllSettled) == Some(FulfilledDocs(rs, norm))
    ensures SettleBatch(rs, norm, AllOrNothing).None? <==> exists i :: 0 <= i < |rs| && rs[i].Failed?
    ensures SettleBatch(rs, norm, AllOrNothing).Some? ==>
              SettleBatch(rs, norm, AllOrNothing) == SettleBatch(rs, norm, AllSettled)
  {
  }

  /** A failed request contributes nothing; each fulfilled one contributes its records in order. */
  lemma {:induction false} FulfilledDocsOfPages(rs: seq<Response>, norm: Body -> seq<Doc>)
    ensures FulfilledDocs(rs, norm) == Flatten(seq(|rs|, i requires 0 <= i < |rs| =>
                                          if rs[i].Ok? then norm(rs[i].body) else []))
    ensures (forall i :: 0 <= i < |rs| ==> rs[i].Failed?) ==> FulfilledDocs(rs, norm) == []
  {
    if rs != [] {
      FulfilledDocsOfPages(rs[1..], norm);
      var pages := seq(|rs|, i requires 0 <= i < |rs| => if rs[i].Ok? then norm(rs[i].body) else []);
      assert pages[1..] == seq(|rs[1..]|, i requires 0 <= i < |rs[1..]| =>
                                if rs[1..][i].Ok? then norm(rs[1..][i].body) else []);
    }
  }

  /** The responses to one batch of offsets, each obtained with `fetch`. */
  function BatchResponses(fetch: nat -> Response, batch: seq<nat>): (rs: seq<Response>)
    ensures |rs| == |batch| && forall i :: 0 <= i < |batch| ==> rs[i] == fetch(batch[i])
  {
    seq(|batch|, i requires 0 <= i < |batch| => fetch(batch[i]))
  }
}
