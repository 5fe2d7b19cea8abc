/**
 * The loads of the in-memory services (bills.service.ts, the two `.new`
 * services and invoices.service.ts): the per-store cache record, the first
 * page shown at once, the background load that appends the remaining pages
 * batch by batch, and the full fetch that fails as a whole. None of these
 * requests goes through `makeRequestWithRetry`: each page is asked once.
 */
module MemoryLoad {
  import opened Wrappers
  import opened Text
  import opened Seqs
  import opened Upstream
  import opened Paging
  import opened Sorting
  import opened Incremental
  import opened StoreRegistry

  /** One store's cache: the records, the flags the read path reports, and the last record's timestamp. */
  datatype StoreCache = StoreCache(cache: seq<Doc>, updating: bool, fullyLoaded: bool, progress: nat,
                                   lastDatetime: Option<string>)

  /** The record `getStoreCache` creates for a store it has not seen. */
  const EmptyCache := StoreCache([], false, false, 0, None)

  /** `getStoreCache(store)`: the store's record, or a fresh empty one. */
  function CacheOf(m: map<string, StoreCache>, store: string): (c: StoreCache)
    ensures store !in m ==> c == EmptyCache
  {
    if store in m then m[store] else EmptyCache
  }

  /** The first page: `start=0, limit=30, metadata=true, DESC`. */
  function FirstPageQuery(typeBill: bool): Query
  {
    Query(0, PageSize, true, true, Unfiltered, typeBill)
  }

  /** The response to a page of the listing, asked once. */
  function MemPage(api: Api, typeBill: bool, start: nat): Response
  {
    api(PageQuery(start, typeBill), 0)
  }

  /** The records one page contributes: none when it failed. */
  function MemPageDocs(api: Api, typeBill: bool, norm: Body -> seq<Doc>, start: nat): seq<Doc>
  {
    var r := MemPage(api, typeBill, start);
    if r.Ok? then norm(r.body) else []
  }

  /** The records of the pages at `offsets`, in offset order. */
  function MemPagesDocs(api: Api, typeBill: bool, norm: Body -> seq<Doc>, offsets: seq<nat>): seq<Doc>
  {
    if offsets == [] then [] else MemPageDocs(api, typeBill, norm, offsets[0]) + MemPagesDocs(api, typeBill, norm, offsets[1..])
  }

  lemma {:induction false} MemPagesDocsAppend(api: Api, typeBill: bool, norm: Body -> seq<Doc>, a: seq<nat>, b: seq<nat>)
    ensures MemPagesDocs(api, typeBill, norm, a + b) == MemPagesDocs(api, typeBill, norm, a) + MemPagesDocs(api, typeBill, norm, b)
  {
    if a == [] {
      assert a + b == b;
    } else {
      assert (a + b)[0] == a[0] && (a + b)[1..] == a[1..] + b;
      MemPagesDocsAppend(api, typeBill, norm, a[1..], b);
    }
  }

  /** Every page at `offsets` was answered. */
  ghost predicate AllAnswered(api: Api, typeBill: bool, offsets: seq<nat>)
  {
    forall o :: o in offsets ==> MemPage(api, typeBill, o).Ok?
  }

  /** The responses to one batch of concurrent page requests. */
  function BatchOf(api: Api, typeBill: bool, batch: seq<nat>): seq<Response>
  {
    BatchResponses((o: nat) => MemPage(api, typeBill, o), batch)
  }

  /** The fulfilled pages of a batch are the batch's pages, read in order. */
  lemma {:induction false} BatchOfPages(api: Api, typeBill: bool, norm: Body -> seq<Doc>, batch: seq<nat>)
    ensures FulfilledDocs(BatchOf(api, typeBill, batch), norm) == MemPagesDocs(api, typeBill, norm, batch)
  {
    if batch != [] {
      BatchOfPages(api, typeBill, norm, batch[1..]);
      assert BatchOf(api, typeBill, batch)[1..] == BatchOf(api, typeBill, batch[1..]);
    }
  }

  /** Under `Promise.all` a batch is rejected exactly when one of its pages failed. */
  lemma BatchRejected(api: Api, typeBill: bool, norm: Body -> seq<Doc>, batch: seq<nat>)
    ensures SettleBatch(BatchOf(api, typeBill, batch), norm, AllOrNothing).None? <==> !AllAnswered(api, typeBill, batch)
    ensures SettleBatch(BatchOf(api, typeBill, batch), norm, AllOrNothing).Some? ==>
              SettleBatch(BatchOf(api, typeBill, batch), norm, AllOrNothing).value == MemPagesDocs(api, typeBill, norm, batch)
  {
    var rs := BatchOf(api, typeBill, batch);
    SettleBatchCases(rs, norm);
    BatchOfPages(api, typeBill, norm, batch);
    if !AllAnswered(api, typeBill, batch) {
      var o :| o in batch && MemPage(api, typeBill, o).Failed?;
      var i :| 0 <= i < |batch| && batch[i] == o;
      assert rs[i].Failed?;
    }
  }

  /** The first page shown at once, newest first (`data.data || []`, sorted); a failed request throws. */
  function InitialDocs(api: Api, typeBill: bool): (r: Fetch<seq<Doc>>)
    ensures r.Fetched? <==> api(FirstPageQuery(typeBill), 0).Ok?
    ensures r.Fetched? ==> SortedBy(r.value, NewestFirst)
                           && multiset(r.value) == multiset(DataOrEmpty(api(FirstPageQuery(typeBill), 0).body))
  {
    var resp := api(FirstPageQuery(typeBill), 0);
    if resp.Ok? then Fetched(SortNewestFirst(DataOrEmpty(resp.body))) else Unavailable
  }

  /** A full fetch's outcome and the `progress` it leaves: the records collected before it stopped. */
  datatype Collected = Collected(docs: Fetch<seq<Doc>>, progress: nat)

  /** The batch loop of a full fetch: `Promise.all` per batch, and one rejected batch throws. */
  function CollectAll(api: Api, typeBill: bool, norm: Body -> seq<Doc>, acc: seq<Doc>, batches: seq<seq<nat>>): Collected
    decreases |batches|
  {
    if batches == [] then Collected(Fetched(acc), |acc|)
    else
      match SettleBatch(BatchOf(api, typeBill, batches[0]), norm, AllOrNothing)
      case None => Collected(Unavailable, |acc|)
      case Some(d) => CollectAll(api, typeBill, norm, acc + d, batches[1..])
  }

  /** The batch loop succeeds exactly when every page of every batch was answered. */
  lemma {:induction false} CollectAllSucceeds(api: Api, typeBill: bool, norm: Body -> seq<Doc>, acc: seq<Doc>, batches: seq<seq<nat>>)
    decreases |batches|
    ensures CollectAll(api, typeBill, norm, acc, batches).docs.Fetched? <==> AllAnswered(api, typeBill, Flatten(batches))
  {
    if batches != [] {
      var b := batches[0];
      assert Flatten(batches) == b + Flatten(batches[1..]);
      BatchRejected(api, typeBill, norm, b);
      var got := SettleBatch(BatchOf(api, typeBill, b), norm, AllOrNothing);
      if got.Some? {
        CollectAllSucceeds(api, typeBill, norm, acc + got.value, batches[1..]);
      } else {
        var o :| o in b && MemPage(api, typeBill, o).Failed?;
        assert o in Flatten(batches);
      }
    }
  }

  /**
   * A successful batch loop appends every batch's pages in order to what it
   * started with, and `progress` counts the result; a failed one keeps at
   * least the starting count.
   */
  lemma {:induction false} CollectAllPages(api: Api, typeBill: bool, norm: Body -> seq<Doc>, acc: seq<Doc>, batches: seq<seq<nat>>)
    decreases |batches|
    ensures var c := CollectAll(api, typeBill, norm, acc, batches);
            (c.docs.Fetched? ==> c.docs.value == acc + MemPagesDocs(api, typeBill, norm, Flatten(batches))
                                 && c.progress == |c.docs.value|)
            && |acc| <= c.progress
  {
    if batches != [] {
      var b := batches[0];
      var got := SettleBatch(BatchOf(api, typeBill, b), norm, AllOrNothing);
      if got.Some? {
        assert Flatten(batches) == b + Flatten(batches[1..]);
        BatchRejected(api, typeBill, norm, b);
        MemPagesDocsAppend(api, typeBill, norm, b, Flatten(batches[1..]));
        CollectAllPages(api, typeBill, norm, acc + got.value, batches[1..]);
        assert acc + got.value + MemPagesDocs(api, typeBill, norm, Flatten(batches[1..]))
            == acc + MemPagesDocs(api, typeBill, norm, Flatten(batches));
      }
    } else {
      assert acc + [] == acc;
    }
  }

  /**
   * `fetchAll...`: the first page with the total, then the pages from 30 on
   * in batches of `size`, and the newest-first sort where the service sorts.
   */
  function FetchAll(api: Api, typeBill: bool, norm: Body -> seq<Doc>, size: nat, sorted: bool): Collected
    requires size > 0
  {
    var first := api(FirstPageQuery(typeBill), 0);
    if first.Failed? then Collected(Unavailable, 0)
    else
      var c := CollectAll(api, typeBill, norm, DataOrEmpty(first.body),
                          Chunks(Offsets(PageSize, MetadataTotal(first.body)), size));
      if c.docs.Fetched? && sorted then Collected(Fetched(SortNewestFirst(c.docs.value)), c.progress) else c
  }

  /**
   * A full fetch succeeds exactly when the first page and every page from 30
   * below the total were answered; it then holds exactly those pages' records
   * (in page order, or rearranged newest first), and `progress` counts them.
   */
  lemma FetchAllPages(api: Api, typeBill: bool, norm: Body -> seq<Doc>, size: nat, sorted: bool)
    requires size > 0
    ensures var first := api(FirstPageQuery(typeBill), 0);
            var c := FetchAll(api, typeBill, norm, size, sorted);
            (c.docs.Fetched? <==> first.Ok? && AllAnswered(api, typeBill, Offsets(PageSize, MetadataTotal(first.body))))
            && (c.docs.Fetched? ==>
                  var all := DataOrEmpty(first.body) + MemPagesDocs(api, typeBill, norm, Offsets(PageSize, MetadataTotal(first.body)));
                  multiset(c.docs.value) == multiset(all) && c.progress == |all|
                  && (sorted ==> SortedBy(c.docs.value, NewestFirst))
                  && (!sorted ==> c.docs.value == all))
  {
    var first := api(FirstPageQuery(typeBill), 0);
    if first.Ok? {
      var offsets := Offsets(PageSize, MetadataTotal(first.body));
      ChunksShape(offsets, size);
      CollectAllSucceeds(api, typeBill, norm, DataOrEmpty(first.body), Chunks(offsets, size));
      CollectAllPages(api, typeBill, norm, DataOrEmpty(first.body), Chunks(offsets, size));
    }
  }

  /** The loop of `fetchAll...`, planning the batches as the source's for-loop does. */
  method FetchAllDocs(api: Api, typeBill: bool, norm: Body -> seq<Doc>, size: nat, sorted: bool) returns (c: Collected)
    requires size > 0
    ensures c == FetchAll(api, typeBill, norm, size, sorted)
  {
    var first := api(FirstPageQuery(typeBill), 0);
    if first.Failed? {
      return Collected(Unavailable, 0);
    }
    var acc := DataOrEmpty(first.body);
    var batches := PlanBatches(PageSize, MetadataTotal(first.body), size);
    for i := 0 to |batches|
      invariant CollectAll(api, typeBill, norm, acc, batches[i..]) == CollectAll(api, typeBill, norm, DataOrEmpty(first.body), batches)
    {
      var got := SettleBatch(BatchOf(api, typeBill, batches[i]), norm, AllOrNothing);
      assert batches[i..][1..] == batches[i + 1..];
      if got.None? {
        return Collected(Unavailable, |acc|);
      }
      acc := acc + got.value;
    }
    assert batches[|batches|..] == [];
    if sorted {
      c := Collected(Fetched(SortNewestFirst(acc)), |acc|);
    } else {
      c := Collected(Fetched(acc), |acc|);
    }
  }

  /** What one background batch adds: nothing when `Promise.all` rejected it. */
  function BatchAdds(api: Api, typeBill: bool, norm: Body -> seq<Doc>, settle: Settle, batch: seq<nat>): seq<Doc>
  {
    match SettleBatch(BatchOf(api, typeBill, batch), norm, settle)
    case None => []
    case Some(d) => d
  }

  /**
   * The background batch loop: a settled batch is sorted newest first and
   * appended, and `progress` becomes the cache's length; a rejected batch
   * is logged and skipped.
   */
  function AppendBatches(api: Api, typeBill: bool, norm: Body -> seq<Doc>, settle: Settle,
                         c: StoreCache, batches: seq<seq<nat>>): (r: StoreCache)
    decreases |batches|
    ensures r.(cache := c.cache, progress := c.progress) == c
  {
    if batches == [] then c
    else
      var next := match SettleBatch(BatchOf(api, typeBill, batches[0]), norm, settle)
                  case None => c
                  case Some(d) => var all := c.cache + SortNewestFirst(d); c.(cache := all, progress := |all|);
      AppendBatches(api, typeBill, norm, settle, next, batches[1..])
  }

  /** The records the background batches add, batch after batch. */
  function AllAdds(api: Api, typeBill: bool, norm: Body -> seq<Doc>, settle: Settle, batches: seq<seq<nat>>): seq<Doc>
  {
    if batches == [] then [] else BatchAdds(api, typeBill, norm, settle, batches[0]) + AllAdds(api, typeBill, norm, settle, batches[1..])
  }

  /**
   * The loop keeps every cached record and adds exactly the settled batches'
   * records.
   */
  lemma {:induction false} AppendBatchesAdds(api: Api, typeBill: bool, norm: Body -> seq<Doc>, settle: Settle,
                                             c: StoreCache, batches: seq<seq<nat>>)
    decreases |batches|
    ensures var r := AppendBatches(api, typeBill, norm, settle, c, batches);
            multiset(r.cache) == multiset(c.cache) + multiset(AllAdds(api, typeBill, norm, settle, batches))
  {
    if batches != [] {
      var got := SettleBatch(BatchOf(api, typeBill, batches[0]), norm, settle);
      var next := match got
                  case None => c
                  case Some(d) => var all := c.cache + SortNewestFirst(d); c.(cache := all, progress := |all|);
      AppendBatchesAdds(api, typeBill, norm, settle, next, batches[1..]);
      var rest := AllAdds(api, typeBill, norm, settle, batches[1..]);
      assert multiset(BatchAdds(api, typeBill, norm, settle, batches[0]) + rest)
          == multiset(BatchAdds(api, typeBill, norm, settle, batches[0])) + multiset(rest);
    }
  }

  /** Under `Promise.allSettled` the background batches add every answered page's records. */
  lemma {:induction false} AllAddsSettled(api: Api, typeBill: bool, norm: Body -> seq<Doc>, batches: seq<seq<nat>>)
    ensures AllAdds(api, typeBill, norm, AllSettled, batches) == MemPagesDocs(api, typeBill, norm, Flatten(batches))
  {
    if batches != [] {
      AllAddsSettled(api, typeBill, norm, batches[1..]);
      SettleBatchCases(BatchOf(api, typeBill, batches[0]), norm);
      BatchOfPages(api, typeBill, norm, batches[0]);
      MemPagesDocsAppend(api, typeBill, norm, batches[0], Flatten(batches[1..]));
    }
  }

  /** When every page request fails, no batch adds anything, however the batches are awaited. */
  lemma {:induction false} AllAddsNothing(api: Api, typeBill: bool, norm: Body -> seq<Doc>, settle: Settle, batches: seq<seq<nat>>)
    requires forall o :: MemPage(api, typeBill, o).Failed?
    ensures AllAdds(api, typeBill, norm, settle, batches) == []
  {
    if batches != [] {
      AllAddsNothing(api, typeBill, norm, settle, batches[1..]);
      var rs := BatchOf(api, typeBill, batches[0]);
      FulfilledDocsOfPages(rs, norm);
      SettleBatchCases(rs, norm);
    }
  }

  /**
   * `continueLoadingInBackground` on cache `c`: the probe (`limit=1`); when
   * the cache already holds the total, it is fully loaded; otherwise the
   * pages from the cache's length up to the total in batches of `size`, a
   * final newest-first sort, and `fullyLoaded` set to true (`completeAlways`)
   * or to whether the cache reached the total. A failed probe clears both flags.
   */
  function Background(api: Api, typeBill: bool, norm: Body -> seq<Doc>, size: nat, settle: Settle,
                      completeAlways: bool, c: StoreCache): (r: StoreCache)
    requires size > 0
    ensures !r.updating && r.lastDatetime == c.lastDatetime
    // with the count check, the store is only reported complete once the probe was answered and the cache holds the total
    ensures !completeAlways && r.fullyLoaded ==>
              api(ProbeQuery(typeBill), 0).Ok? && |r.cache| >= MetadataTotal(api(ProbeQuery(typeBill), 0).body)
  {
    var probe := api(ProbeQuery(typeBill), 0);
    if probe.Failed? then c.(updating := false, fullyLoaded := false)
    else
      var total := MetadataTotal(probe.body);
      if |c.cache| >= total then c.(updating := false, fullyLoaded := true)
      else
        var loaded := AppendBatches(api, typeBill, norm, settle, c, Chunks(Offsets(|c.cache|, total), size));
        var sorted := SortNewestFirst(loaded.cache);
        loaded.(cache := sorted, fullyLoaded := completeAlways || |sorted| >= total, updating := false)
  }

  /**
   * The background load never drops a cached record, and when it loads
   * pages it leaves the whole cache newest first, holding the old records and
   * the settled batches' records.
   */
  lemma BackgroundKeeps(api: Api, typeBill: bool, norm: Body -> seq<Doc>, size: nat, settle: Settle,
                        completeAlways: bool, c: StoreCache)
    requires size > 0
    ensures var r := Background(api, typeBill, norm, size, settle, completeAlways, c);
            var probe := api(ProbeQuery(typeBill), 0);
            multiset(c.cache) <= multiset(r.cache)
            && (probe.Ok? && |c.cache| < MetadataTotal(probe.body) ==>
                  var batches := Chunks(Offsets(|c.cache|, MetadataTotal(probe.body)), size);
                  SortedBy(r.cache, NewestFirst)
                  && multiset(r.cache) == multiset(c.cache) + multiset(AllAdds(api, typeBill, norm, settle, batches)))
  {
    var probe := api(ProbeQuery(typeBill), 0);
    if probe.Ok? && |c.cache| < MetadataTotal(probe.body) {
      AppendBatchesAdds(api, typeBill, norm, settle, c, Chunks(Offsets(|c.cache|, MetadataTotal(probe.body)), size));
    }
  }

  /**
   * With `Promise.allSettled` and the count check (bills.service.ts), a
   * background load that runs holds the cached records plus every answered
   * page's records, and it is fully loaded exactly when the cache reached
   * the total.
   */
  lemma BackgroundSettledPages(api: Api, typeBill: bool, norm: Body -> seq<Doc>, size: nat, c: StoreCache)
    requires size > 0
    requires api(ProbeQuery(typeBill), 0).Ok? && |c.cache| < MetadataTotal(api(ProbeQuery(typeBill), 0).body)
    ensures var r := Background(api, typeBill, norm, size, AllSettled, false, c);
            var total := MetadataTotal(api(ProbeQuery(typeBill), 0).body);
            multiset(r.cache) == multiset(c.cache + MemPagesDocs(api, typeBill, norm, Offsets(|c.cache|, total)))
            && (r.fullyLoaded <==> |r.cache| >= total)
  {
    var total := MetadataTotal(api(ProbeQuery(typeBill), 0).body);
    var batches := Chunks(Offsets(|c.cache|, total), size);
    BackgroundKeeps(api, typeBill, norm, size, AllSettled, false, c);
    ChunksShape(Offsets(|c.cache|, total), size);
    AllAddsSettled(api, typeBill, norm, batches);
  }

  /**
   * Without the count check (the `.new` services), a background load whose
   * page requests all fail still reports the store fully loaded while the
   * cache holds fewer records than the total.
   */
  lemma BackgroundClaimsComplete(api: Api, typeBill: bool, norm: Body -> seq<Doc>, size: nat, settle: Settle, c: StoreCache)
    requires size > 0
    requires api(ProbeQuery(typeBill), 0).Ok? && |c.cache| < MetadataTotal(api(ProbeQuery(typeBill), 0).body)
    requires forall o :: MemPage(api, typeBill, o).Failed?
    ensures var r := Background(api, typeBill, norm, size, settle, true, c);
            r.fullyLoaded && |r.cache| < MetadataTotal(api(ProbeQuery(typeBill), 0).body)
  {
    var total := MetadataTotal(api(ProbeQuery(typeBill), 0).body);
    var batches := Chunks(Offsets(|c.cache|, total), size);
    AppendBatchesAdds(api, typeBill, norm, settle, c, batches);
    AllAddsNothing(api, typeBill, norm, settle, batches);
    var loaded := AppendBatches(api, typeBill, norm, settle, c, batches);
    assert multiset(loaded.cache) == multiset(c.cache);
    assert |loaded.cache| == |multiset(loaded.cache)|;
  }

  /** The loop of `continueLoadingInBackground`. */
  method RunBackground(api: Api, typeBill: bool, norm: Body -> seq<Doc>, size: nat, settle: Settle,
                       completeAlways: bool, c: StoreCache) returns (r: StoreCache)
    requires size > 0
    ensures r == Background(api, typeBill, norm, size, settle, completeAlways, c)
  {
    var probe := api(ProbeQuery(typeBill), 0);
    if probe.Failed? {
      return c.(updating := false, fullyLoaded := false);
    }
    var total := MetadataTotal(probe.body);
    if |c.cache| >= total {
      return c.(updating := false, fullyLoaded := true);
    }
    var batches := PlanBatches(|c.cache|, total, size);
    r := LoadBatches(api, typeBill, norm, settle, c, batches);
    var sorted := SortNewestFirst(r.cache);
    r := r.(cache := sorted, fullyLoaded := completeAlways || |sorted| >= total, updating := false);
  }

  /** The batch loop of `continueLoadingInBackground`: each settled batch is sorted and appended, and the progress follows. */
  method LoadBatches(api: Api, typeBill: bool, norm: Body -> seq<Doc>, settle: Settle,
                     c: StoreCache, batches: seq<seq<nat>>) returns (r: StoreCache)
    ensures r == AppendBatches(api, typeBill, norm, settle, c, batches)
  {
    r := c;
    for i := 0 to |batches|
      invariant AppendBatches(api, typeBill, norm, settle, r, batches[i..]) == AppendBatches(api, typeBill, norm, settle, c, batches)
    {
      var got := SettleBatch(BatchOf(api, typeBill, batches[i]), norm, settle);
      assert batches[i..][1..] == batches[i + 1..];
      if got.Some? {
        var all := r.cache + SortNewestFirst(got.value);
        r := r.(cache := all, progress := |all|);
      }
    }
    assert batches[|batches|..] == [];
  }

  /**
   * A manual update's new cache: the new records in front of the cached
   * ones, re-sorted newest first where the service sorts.
   */
  function Prepended(added: seq<Doc>, cache: seq<Doc>, sorted: bool): (r: seq<Doc>)
    ensures |r| == |added| + |cache| && multiset(r) == multiset(added) + multiset(cache)
    ensures sorted ==> SortedBy(r, NewestFirst)
    ensures !sorted ==> r[..|added|] == added && r[|added|..] == cache
  {
    if sorted then SortNewestFirst(added + cache) else added + cache
  }

  /** The store keys after `getStoreCache(store)`: a record for `store` is created once, and no other record changes. */
  function WithCache(m: map<string, StoreCache>, store: string): (r: map<string, StoreCache>)
    ensures store in r && r[store] == CacheOf(m, store)
    ensures r.Keys == m.Keys + {store}
    ensures forall k :: k in m ==> r[k] == m[k]
    ensures store in m ==> r == m
  {
    if store in m then m else m[store := EmptyCache]
  }

  /** `getStoreCache` writes the store's record back as it reads it. */
  lemma WithCacheWrites(m: map<string, StoreCache>, store: string)
    ensures WithCache(m, store) == m[store := CacheOf(m, store)]
  {
  }

  /** Writing a store's record twice leaves the second. */
  lemma Overwritten(m: map<string, StoreCache>, store: string, a: StoreCache, b: StoreCache)
    ensures m[store := a][store := b] == m[store := b]
  {
  }

  /** The timestamp a service keeps as its cursor: `datetime || date`, or `datetime` alone. */
  function StampOf(advance: Advance, d: Doc): (r: Option<string>)
    ensures advance == DatetimeOnly ==> r == d.datetime
    ensures advance == DatetimeOrDate && Truthy(d.datetime) ==> r == d.datetime
    ensures advance == DatetimeOrDate && !Truthy(d.datetime) ==> r == d.date
  {
    if advance == DatetimeOrDate then Or(d.datetime, d.date) else d.datetime
  }

  /** `initializeStoreIfNeeded` loads only a store whose cache is empty and not being updated. */
  predicate NeedsInitialLoad(c: StoreCache)
  {
    |c.cache| == 0 && !c.updating
  }

  /**
   * `loadInitial...ForStore` once the first page has arrived or failed: the
   * page becomes the cache and `progress`, its first record's stamp the
   * cursor; a failure only clears `updating`.
   */
  function InitialLoaded(c: StoreCache, got: Fetch<seq<Doc>>, advance: Advance): (r: StoreCache)
    ensures !r.updating && r.fullyLoaded == c.fullyLoaded
    ensures got.Unavailable? ==> r.cache == c.cache && r.progress == c.progress && r.lastDatetime == c.lastDatetime
    ensures got.Fetched? ==> r.cache == got.value && r.progress == |r.cache|
    ensures got.Fetched? && |got.value| > 0 ==> r.lastDatetime == StampOf(advance, got.value[0])
    ensures got.Fetched? && |got.value| == 0 ==> r.lastDatetime == c.lastDatetime
  {
    match got
    case Unavailable => c.(updating := false)
    case Fetched(d) =>
      c.(cache := d, progress := |d|, updating := false,
         lastDatetime := if |d| > 0 then StampOf(advance, d[0]) else c.lastDatetime)
  }

  /**
   * The cache after a full load (`loadAll...FromAPI`, `onModuleInit`): the
   * records, their count, the first record's stamp, and the store complete.
   * A failed load keeps the records and the `progress` the fetch reached.
   */
  function FullyLoaded(c: StoreCache, got: Collected, advance: Advance): (r: StoreCache)
    ensures got.docs.Fetched? ==> r.cache == got.docs.value && r.progress == |r.cache| && r.fullyLoaded && !r.updating
    ensures got.docs.Fetched? && |got.docs.value| > 0 ==> r.lastDatetime == StampOf(advance, got.docs.value[0])
    ensures got.docs.Unavailable? ==> r.cache == c.cache && r.progress == got.progress && r.fullyLoaded == c.fullyLoaded
                                      && r.updating == c.updating && r.lastDatetime == c.lastDatetime
  {
    match got.docs
    case Unavailable => c.(progress := got.progress)
    case Fetched(d) =>
      c.(cache := d, progress := |d|, fullyLoaded := true, updating := false,
         lastDatetime := if |d| > 0 then StampOf(advance, d[0]) else c.lastDatetime)
  }

  /**
   * A manual update's cache once `fetchNew...` returned `added`: when there
   * is something new, it goes in front of the cache (re-sorted where the
   * service sorts), `progress` becomes the new length and the cursor the
   * first new record's stamp; otherwise nothing changes.
   */
  function Merged(c: StoreCache, added: seq<Doc>, advance: Advance, sorted: bool): (r: StoreCache)
    ensures r.updating == c.updating && r.fullyLoaded == c.fullyLoaded
    ensures |added| == 0 ==> r == c
    ensures |added| > 0 ==> multiset(r.cache) == multiset(added) + multiset(c.cache) && r.progress == |r.cache|
                            && r.lastDatetime == StampOf(advance, added[0])
    ensures |added| > 0 && sorted ==> SortedBy(r.cache, NewestFirst)
    ensures |added| > 0 && !sorted ==> r.cache == added + c.cache
  {
    if |added| == 0 then c
    else
      var all := Prepended(added, c.cache, sorted);
      c.(cache := all, progress := |all|, lastDatetime := StampOf(advance, added[0]))
  }

  /** What `getCached...` returns for a store. */
  datatype CacheView = CacheView(updating: bool, progress: nat, fullyLoaded: bool, data: seq<Doc>,
                                 store: string, storeDisplayName: string)

  /** The view of one store's cache: its flags, `progress` and records as they stand. */
  function CacheViewOf(c: StoreCache, store: string, displayName: string): CacheView
  {
    CacheView(c.updating, c.progress, c.fullyLoaded, c.cache, store, displayName)
  }

  /** The first page for `store`: a store `getCredentials` rejects throws before any request. */
  function InitialFor(api: Api, typeBill: bool, store: string): (r: Fetch<seq<Doc>>)
    ensures !IsValidStore(store) ==> r == Unavailable
    ensures IsValidStore(store) ==> r == InitialDocs(api, typeBill)
  {
    if IsValidStore(store) then InitialDocs(api, typeBill) else Unavailable
  }

  /** The two-phase refresh for `store`: a store `getCredentials` rejects throws before any request. */
  function NewFor(api: Api, typeBill: bool, v: Variant, store: string, last: Option<string>): (r: Fetch<seq<Doc>>)
    ensures !IsValidStore(store) ==> r == Unavailable
    ensures IsValidStore(store) ==> r == FetchNew(api, typeBill, v, last)
  {
    if IsValidStore(store) then FetchNew(api, typeBill, v, last) else Unavailable
  }
}
