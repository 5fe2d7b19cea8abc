/**
 * What a full load of the database-backed services does, as functions of
 * the upstream endpoint and the cache it starts from: the metadata probe,
 * the pages of 30 requested two at a time through `makeRequestWithRetry`
 * and awaited with `Promise.allSettled`, the rows written, and the status
 * row it leaves.
 */
module DbSync {
  import opened Wrappers
  import opened Seqs
  import opened Upstream
  import opened Paging
  import opened RateLimit
  import opened CacheRepository
  import opened Sorting
  import opened StoreRegistry

  /** Offsets per concurrent batch in the database-backed full loads. */
  const DbBatchSize: nat := 2

  /** The final response of a request made through `makeRequestWithRetry`. */
  function Retrying(api: Api, q: Query): Response
  {
    MakeRequestWithRetry((k: nat) => api(q, k), 0).response
  }

  /**
   * The attempts of a page request whose first attempt asks for the page at
   * `start` and whose repetitions ask for the page at `retryAt`.
   */
  function PageAttempts(api: Api, start: nat, retryAt: nat): nat -> Response
  {
    (k: nat) => api(PageQuery(if k == 0 then start else retryAt, false), k)
  }

  /** The page of the full listing at `start`, every attempt asking for that page. */
  function PageResponse(api: Api, start: nat): Response
  {
    MakeRequestWithRetry(PageAttempts(api, start, start), 0).response
  }

  /** How a page body is read: `data.data || []` for invoices, array-or-`data` for bills. */
  function Normaliser(kind: RowKind): Body -> seq<Doc>
  {
    if kind.InvoiceRows? then DataOrEmpty else ArrayOrData
  }

  /** The records one page contributes: its records when fulfilled, none when it failed. */
  function PageDocs(api: Api, kind: RowKind, start: nat): seq<Doc>
  {
    var r := PageResponse(api, start);
    if r.Ok? then Normaliser(kind)(r.body) else []
  }

  /** The records of the pages at `offsets`, in offset order. */
  function PagesDocs(api: Api, kind: RowKind, offsets: seq<nat>): seq<Doc>
  {
    FlatMap(PageReader(api, kind), offsets)
  }

  /** `PageDocs` as a function of the offset. */
  function PageReader(api: Api, kind: RowKind): nat -> seq<Doc>
  {
    (o: nat) => PageDocs(api, kind, o)
  }

  lemma PagesDocsAppend(api: Api, kind: RowKind, a: seq<nat>, b: seq<nat>)
    ensures PagesDocs(api, kind, a + b) == PagesDocs(api, kind, a) + PagesDocs(api, kind, b)
  {
    FlatMapAppend(PageReader(api, kind), a, b);
  }

  /**
   * How the request closures of a batch see the loop's offset. Both full
   * loads declare `let start` before their `for` loop, so every closure reads
   * that one variable: a request's first attempt runs as the closure is
   * built, with its own offset, but a repetition after a 429 runs after the
   * delay, while the loop waits on `Promise.allSettled` with `start` at the
   * batch's last offset. A binding per iteration (a `const start` in the loop
   * body) would repeat the request's own offset.
   */
  datatype StartBinding = SharedStart | PerIteration

  /** The page's first answer is HTTP 429, so `makeRequestWithRetry` repeats the request. */
  predicate FirstAttemptLimited(api: Api, start: nat)
  {
    Retryable(api(PageQuery(start, false), 0), 0)
  }

  /**
   * The response to the request for the page at `start` in a batch whose last
   * offset is `last`: the page's own response when `start` is bound per
   * iteration, when it is the batch's last page, or when its first attempt is
   * not a 429.
   */
  function BatchPageResponse(api: Api, binding: StartBinding, start: nat, last: nat): (r: Response)
    ensures binding.PerIteration? || start == last ==> r == PageResponse(api, start)
    ensures !FirstAttemptLimited(api, start) ==> r == PageResponse(api, start) == api(PageQuery(start, false), 0)
  {
    MakeRequestWithRetry(PageAttempts(api, start, if binding.SharedStart? then last else start), 0).response
  }

  /** No page of the batch but its last is answered 429 on its first attempt. */
  predicate EarlyPagesAnswered(api: Api, batch: seq<nat>)
  {
    forall i :: 0 <= i < |batch| - 1 ==> !FirstAttemptLimited(api, batch[i])
  }

  /** The records one batch yields under `Promise.allSettled`. */
  function BatchDocs(api: Api, kind: RowKind, binding: StartBinding, batch: seq<nat>): seq<Doc>
  {
    var last := if batch == [] then 0 else batch[|batch| - 1];
    FulfilledDocs(BatchResponses((o: nat) => BatchPageResponse(api, binding, o, last), batch), Normaliser(kind))
  }

  lemma {:induction false} BatchResponsesArePages(api: Api, kind: RowKind, binding: StartBinding, batch: seq<nat>, last: nat)
    requires forall i :: 0 <= i < |batch| ==>
               binding.PerIteration? || batch[i] == last || !FirstAttemptLimited(api, batch[i])
    ensures FulfilledDocs(BatchResponses((o: nat) => BatchPageResponse(api, binding, o, last), batch), Normaliser(kind))
            == PagesDocs(api, kind, batch)
  {
    if batch != [] {
      BatchResponsesArePages(api, kind, binding, batch[1..], last);
      assert BatchResponses((o: nat) => BatchPageResponse(api, binding, o, last), batch)[1..]
          == BatchResponses((o: nat) => BatchPageResponse(api, binding, o, last), batch[1..]);
    }
  }

  /**
   * A batch yields the records of its own pages, in order, when `start` is
   * bound per iteration, or when no page but the last is answered 429 first.
   */
  lemma BatchDocsArePages(api: Api, kind: RowKind, binding: StartBinding, batch: seq<nat>)
    requires binding.PerIteration? || EarlyPagesAnswered(api, batch)
    ensures BatchDocs(api, kind, binding, batch) == PagesDocs(api, kind, batch)
  {
    BatchResponsesArePages(api, kind, binding, batch, if batch == [] then 0 else batch[|batch| - 1]);
  }

  /** The records a run of batches collects, batch after batch. */
  function BatchesDocs(api: Api, kind: RowKind, binding: StartBinding, batches: seq<seq<nat>>): seq<Doc>
  {
    if batches == [] then []
    else BatchesDocs(api, kind, binding, batches[..|batches| - 1]) + BatchDocs(api, kind, binding, batches[|batches| - 1])
  }

  /** Under the same condition, batching changes nothing: the records are the pages' records in offset order. */
  lemma {:induction false} BatchesDocsArePages(api: Api, kind: RowKind, binding: StartBinding, batches: seq<seq<nat>>)
    requires binding.PerIteration? || forall i :: 0 <= i < |batches| ==> EarlyPagesAnswered(api, batches[i])
    ensures BatchesDocs(api, kind, binding, batches) == PagesDocs(api, kind, Flatten(batches))
  {
    if batches != [] {
      var init := batches[..|batches| - 1];
      var last := batches[|batches| - 1];
      assert batches == init + [last];
      assert forall i :: 0 <= i < |init| ==> init[i] == batches[i];
      BatchesDocsArePages(api, kind, binding, init);
      BatchDocsArePages(api, kind, binding, last);
      FlattenAppend(init, [last]);
      assert Flatten([last]) == last + Flatten([]);
      assert Flatten(batches) == Flatten(init) + last;
      PagesDocsAppend(api, kind, Flatten(init), last);
    }
  }

  /** The records a full load of `total` records collects: its batches of two pages, in order. */
  function LoadedDocs(api: Api, kind: RowKind, binding: StartBinding, total: nat): seq<Doc>
  {
    BatchesDocs(api, kind, binding, Chunks(Offsets(0, total), DbBatchSize))
  }

  /** In a full load of `total` records, no page but a batch's last is answered 429 on its first attempt. */
  predicate FirstAttemptsAnswered(api: Api, total: nat)
  {
    forall i :: 0 <= i < |Chunks(Offsets(0, total), DbBatchSize)| ==> EarlyPagesAnswered(api, Chunks(Offsets(0, total), DbBatchSize)[i])
  }

  /** The table and the status row a full load leaves. */
  datatype LoadResult = LoadResult(table: Table, status: SyncStatus)

  /**
   * A full load from table `t` and the status row `st` it reads, its page
   * requests seeing `start` as `binding` says: probe the total, write every
   * batch's records, then record the total, whether the store's row count
   * reached it, and `isSyncing = false`. A failed probe only clears `isSyncing`.
   */
  function FullLoadWith(binding: StartBinding, kind: RowKind, t: Table, st: SyncStatus, store: string, api: Api,
                        refused: set<int>): (r: LoadResult)
    ensures !r.status.isSyncing && r.status.lastSyncDatetime == st.lastSyncDatetime
  {
    var probe := Retrying(api, ProbeQuery(false));
    if probe.Failed? then LoadResult(t, st.(isSyncing := false))
    else
      var total := MetadataTotal(probe.body);
      var loaded := Upsert(t, store, LoadedDocs(api, kind, binding, total), refused, kind);
      LoadResult(loaded, st.(totalRecords := total, isFullyLoaded := StoreCount(loaded, store) >= total,
                             isSyncing := false))
  }

  /** `loadAll...FromAPI(store)` as written, with the `start` its loop shares with every request closure. */
  function FullLoad(kind: RowKind, t: Table, st: SyncStatus, store: string, api: Api, refused: set<int>): (r: LoadResult)
    ensures !r.status.isSyncing && r.status.lastSyncDatetime == st.lastSyncDatetime
  {
    FullLoadWith(SharedStart, kind, t, st, store, api, refused)
  }

  /**
   * The full load writes the records its batches collect, which are every
   * page's below the total, requested once each in offset order, unless a
   * page other than a batch's last was answered 429 on its first attempt; a
   * failed probe changes no row.
   */
  lemma FullLoadWritesEveryPage(kind: RowKind, t: Table, st: SyncStatus, store: string, api: Api, refused: set<int>)
    ensures var probe := Retrying(api, ProbeQuery(false));
            var r := FullLoad(kind, t, st, store, api, refused);
            if probe.Failed? then r == LoadResult(t, st.(isSyncing := false))
            else
              var total := MetadataTotal(probe.body);
              r.table == Upsert(t, store, LoadedDocs(api, kind, SharedStart, total), refused, kind)
              && (FirstAttemptsAnswered(api, total) ==> LoadedDocs(api, kind, SharedStart, total) == PagesDocs(api, kind, Offsets(0, total)))
              && r.status.totalRecords == total
              && (r.status.isFullyLoaded <==> StoreCount(r.table, store) >= total)
  {
    var probe := Retrying(api, ProbeQuery(false));
    if probe.Ok? {
      var total := MetadataTotal(probe.body);
      if FirstAttemptsAnswered(api, total) {
        ChunksShape(Offsets(0, total), DbBatchSize);
        BatchesDocsArePages(api, kind, SharedStart, Chunks(Offsets(0, total), DbBatchSize));
      }
    }
  }

  /**
   * With `start` bound per iteration, a full load writes the records of
   * every page below the total, requested once each in offset order, whatever
   * the 429 answers.
   */
  lemma PerIterationLoadWritesEveryPage(kind: RowKind, t: Table, st: SyncStatus, store: string, api: Api, refused: set<int>)
    ensures var probe := Retrying(api, ProbeQuery(false));
            var r := FullLoadWith(PerIteration, kind, t, st, store, api, refused);
            if probe.Failed? then r == LoadResult(t, st.(isSyncing := false))
            else
              var total := MetadataTotal(probe.body);
              r.table == Upsert(t, store, PagesDocs(api, kind, Offsets(0, total)), refused, kind)
              && r.status.totalRecords == total
              && (r.status.isFullyLoaded <==> StoreCount(r.table, store) >= total)
  {
    var probe := Retrying(api, ProbeQuery(false));
    if probe.Ok? {
      var total := MetadataTotal(probe.body);
      ChunksShape(Offsets(0, total), DbBatchSize);
      BatchesDocsArePages(api, kind, PerIteration, Chunks(Offsets(0, total), DbBatchSize));
    }
  }

  /**
   * An endpoint with 60 records, one per page whose id is the page's offset
   * plus one, that answers the first request for the page at 0 with a 429.
   */
  function LostPageApi(): Api
  {
    (q: Query, k: nat) =>
      if q.metadata then Response.Ok(Envelope(Some(60), Some([])))
      else if q.start == 0 && k == 0 then Failed(TooManyRequests)
      else Response.Ok(Envelope(None, Some([Doc(q.start + 1, None, None)])))
  }

  /** The pages of `LostPageApi` below 60 and the batches a full load of 60 records requests. */
  lemma LostPageOffsets()
    ensures Offsets(0, 60) == [0, 30]
    ensures Chunks(Offsets(0, 60), DbBatchSize) == [[0, 30]]
    ensures Retrying(LostPageApi(), ProbeQuery(false)) == Response.Ok(Envelope(Some(60), Some([])))
  {
    assert Offsets(60, 60) == [];
    assert Offsets(30, 60) == [30];
  }

  /** Each page of `LostPageApi`, requested on its own, yields its one record. */
  lemma LostPageEveryPage()
    ensures PagesDocs(LostPageApi(), InvoiceRows, [0, 30]) == [Doc(1, None, None), Doc(31, None, None)]
  {
    var api := LostPageApi();
    assert PageDocs(api, InvoiceRows, 0) == [Doc(1, None, None)] by {
      assert MakeRequestWithRetry(PageAttempts(api, 0, 0), 1) == Retried(Response.Ok(Envelope(None, Some([Doc(1, None, None)]))), []);
    }
    assert PageDocs(api, InvoiceRows, 30) == [Doc(31, None, None)];
    assert [0, 30][1..] == [30];
    assert [30][1..] == [];
  }

  /** With the shared `start`, the repeated request for the page at 0 is answered with the page at 30. */
  lemma LostPageSharedBatch()
    ensures BatchDocs(LostPageApi(), InvoiceRows, SharedStart, [0, 30]) == [Doc(31, None, None), Doc(31, None, None)]
  {
    var api := LostPageApi();
    var page30 := Response.Ok(Envelope(None, Some([Doc(31, None, None)])));
    assert MakeRequestWithRetry(PageAttempts(api, 0, 30), 1) == Retried(page30, []);
    assert BatchPageResponse(api, SharedStart, 0, 30) == page30;
    assert BatchPageResponse(api, SharedStart, 30, 30) == page30;
    var rs := BatchResponses((o: nat) => BatchPageResponse(api, SharedStart, o, 30), [0, 30]);
    assert rs == [page30, page30];
    assert rs[1..] == [page30] && rs[1..][1..] == [];
  }

  /** The records a full load of `LostPageApi`'s 60 records collects under each binding of `start`. */
  lemma LostPageLoads()
    ensures LoadedDocs(LostPageApi(), InvoiceRows, SharedStart, 60) == [Doc(31, None, None), Doc(31, None, None)]
    ensures LoadedDocs(LostPageApi(), InvoiceRows, PerIteration, 60) == [Doc(1, None, None), Doc(31, None, None)]
  {
    var api := LostPageApi();
    LostPageOffsets();
    LostPageEveryPage();
    LostPageSharedBatch();
    BatchDocsArePages(api, InvoiceRows, PerIteration, [0, 30]);
    assert [[0, 30]][..0] == [];
    assert BatchesDocs(api, InvoiceRows, SharedStart, [[0, 30]]) == BatchDocs(api, InvoiceRows, SharedStart, [0, 30]);
    assert BatchesDocs(api, InvoiceRows, PerIteration, [[0, 30]]) == BatchDocs(api, InvoiceRows, PerIteration, [0, 30]);
  }

  /**
   * With the shared `start`, the repeated request for the page at 0 asks for
   * the page at 30: the full load writes record 31 twice and never record 1,
   * which a binding per iteration writes.
   */
  lemma SharedStartLosesPage(t: Table, st: SyncStatus, store: string, refused: set<int>)
    ensures PagesDocs(LostPageApi(), InvoiceRows, Offsets(0, 60)) == [Doc(1, None, None), Doc(31, None, None)]
    ensures FullLoad(InvoiceRows, t, st, store, LostPageApi(), refused).table
            == Upsert(t, store, [Doc(31, None, None), Doc(31, None, None)], refused, InvoiceRows)
    ensures FullLoadWith(PerIteration, InvoiceRows, t, st, store, LostPageApi(), refused).table
            == Upsert(t, store, [Doc(1, None, None), Doc(31, None, None)], refused, InvoiceRows)
  {
    LostPageOffsets();
    LostPageEveryPage();
    LostPageLoads();
  }

  /** The pages a full load requests: each multiple of 30 below the total, once, increasing. */
  lemma FullLoadPages(total: nat)
    ensures Flatten(Chunks(Offsets(0, total), DbBatchSize)) == Offsets(0, total)
    ensures forall i :: 0 <= i < |Chunks(Offsets(0, total), DbBatchSize)| ==> 1 <= |Chunks(Offsets(0, total), DbBatchSize)[i]| <= DbBatchSize
    ensures forall x: nat :: x in Offsets(0, total) <==> x < total && x % PageSize == 0
    ensures forall i, j :: 0 <= i < j < |Offsets(0, total)| ==> Offsets(0, total)[i] < Offsets(0, total)[j]
    ensures |Offsets(0, total)| == (total + PageSize - 1) / PageSize
  {
    ChunksShape(Offsets(0, total), DbBatchSize);
    forall x: nat ensures x in Offsets(0, total) <==> x < total && x % PageSize == 0 {
      OffsetsMembership(0, total, x);
    }
    OffsetsIncreasing(0, total);
    OffsetsCount(0, total);
  }

  /** When the records its batches collect carry at least `total` distinct accepted ids, the store is marked fully loaded. */
  lemma FullLoadComplete(kind: RowKind, t: Table, st: SyncStatus, store: string, api: Api, refused: set<int>)
    requires Retrying(api, ProbeQuery(false)).Ok?
    requires var total := MetadataTotal(Retrying(api, ProbeQuery(false)).body);
             |AcceptedIds(LoadedDocs(api, kind, SharedStart, total), refused)| >= total
    ensures FullLoad(kind, t, st, store, api, refused).status.isFullyLoaded
  {
    var total := MetadataTotal(Retrying(api, ProbeQuery(false)).body);
    UpsertCountAtLeast(t, store, LoadedDocs(api, kind, SharedStart, total), refused, kind);
  }

  /**
   * A probe answered without a total (a bare array, as the bills endpoint
   * sends, or no `metadata`) requests no page, changes no row and marks the
   * store fully loaded with `totalRecords = 0`.
   */
  lemma FullLoadWithoutTotal(kind: RowKind, t: Table, st: SyncStatus, store: string, api: Api, refused: set<int>)
    requires Retrying(api, ProbeQuery(false)).Ok?
    requires MetadataTotal(Retrying(api, ProbeQuery(false)).body) == 0
    ensures FullLoad(kind, t, st, store, api, refused)
         == LoadResult(t, st.(totalRecords := 0, isFullyLoaded := true, isSyncing := false))
  {
    assert Offsets(0, 0) == [];
    assert Chunks(Offsets(0, 0), DbBatchSize) == [];
  }

  /** A full load for one store leaves every other store's rows as they were. */
  lemma FullLoadOtherStores(kind: RowKind, t: Table, st: SyncStatus, store: string, api: Api, refused: set<int>)
    ensures var r := FullLoad(kind, t, st, store, api, refused).table;
            forall k: RowKey :: k.store != store ==> (k in r <==> k in t) && (k in t ==> r[k] == t[k])
  {
    var probe := Retrying(api, ProbeQuery(false));
    if probe.Ok? {
      var total := MetadataTotal(probe.body);
      UpsertOtherStores(t, store, LoadedDocs(api, kind, SharedStart, total), refused, kind);
    }
  }

  /**
   * `initializeDataLoad` from table `t` and status row `st`: nothing while a
   * sync runs; otherwise `isSyncing` is saved and the full load runs with
   * that row; a store `getCredentials` rejects makes the load throw, and the
   * `catch` saves the row with `isSyncing` cleared again.
   */
  function Initialized(kind: RowKind, t: Table, st: SyncStatus, store: string, api: Api, refused: set<int>): (r: LoadResult)
    ensures st.isSyncing ==> r == LoadResult(t, st)
    ensures !st.isSyncing ==> !r.status.isSyncing
  {
    if st.isSyncing then LoadResult(t, st)
    else if !IsValidStore(store) then LoadResult(t, st.(isSyncing := false))
    else FullLoad(kind, t, st.(isSyncing := true), store, api, refused)
  }

  /**
   * A load that starts writes the records its batches collect (every page's
   * when no page but a batch's last is answered 429 first), records the
   * probe's total and marks the store fully loaded exactly when its row
   * count reached it.
   */
  lemma InitializedRecordsTotal(kind: RowKind, t: Table, st: SyncStatus, store: string, api: Api, refused: set<int>)
    requires !st.isSyncing && IsValidStore(store)
    requires Retrying(api, ProbeQuery(false)).Ok?
    ensures var r := Initialized(kind, t, st, store, api, refused);
            var total := MetadataTotal(Retrying(api, ProbeQuery(false)).body);
            r.status.totalRecords == total
            && (r.status.isFullyLoaded <==> StoreCount(r.table, store) >= total)
            && r.table == Upsert(t, store, LoadedDocs(api, kind, SharedStart, total), refused, kind)
            && (FirstAttemptsAnswered(api, total) ==> LoadedDocs(api, kind, SharedStart, total) == PagesDocs(api, kind, Offsets(0, total)))
  {
    FullLoadWritesEveryPage(kind, t, st.(isSyncing := true), store, api, refused);
  }

  /**
   * `ensureFullDataPersistence` as written: the load runs with its own copy
   * of the status row, then the `finally` saves the copy read before the
   * load, with only `isSyncing` cleared.
   */
  function EnsureFullAsWritten(kind: RowKind, t: Table, st: SyncStatus, store: string, api: Api, refused: set<int>): (r: LoadResult)
    ensures !st.isSyncing ==> r.status == st
  {
    if st.isSyncing then LoadResult(t, st)
    else if !IsValidStore(store) then LoadResult(t, st.(isSyncing := false))
    else LoadResult(FullLoad(kind, t, st.(isSyncing := true), store, api, refused).table,
                    st.(isSyncing := false))
  }

  /**
   * The stale write loses the load's bookkeeping: from a row with
   * `totalRecords = 0`, a load whose probe reports a positive total leaves the
   * row at `totalRecords = 0`, although the load recorded the total.
   */
  lemma EnsureFullLosesTotal(kind: RowKind, t: Table, st: SyncStatus, store: string, api: Api, refused: set<int>)
    requires !st.isSyncing && IsValidStore(store) && st.totalRecords == 0
    requires Retrying(api, ProbeQuery(false)).Ok? && MetadataTotal(Retrying(api, ProbeQuery(false)).body) > 0
    ensures EnsureFullAsWritten(kind, t, st, store, api, refused).status.totalRecords == 0
    ensures FullLoad(kind, t, st.(isSyncing := true), store, api, refused).status.totalRecords
            == MetadataTotal(Retrying(api, ProbeQuery(false)).body)
  {
  }

  /**
   * `ensureFullDataPersistence` as intended: the row the load leaves, with
   * its total and its fully-loaded flag, and `isSyncing` cleared.
   */
  function EnsureFullIntended(kind: RowKind, t: Table, st: SyncStatus, store: string, api: Api, refused: set<int>): (r: LoadResult)
    ensures r.table == EnsureFullAsWritten(kind, t, st, store, api, refused).table
    ensures !st.isSyncing ==> !r.status.isSyncing
  {
    if st.isSyncing then LoadResult(t, st)
    else Initialized(kind, t, st, store, api, refused)
  }

  /** The intended persistence pass keeps the total it loaded and whether the store reached it. */
  lemma EnsureFullIntendedRecordsTotal(kind: RowKind, t: Table, st: SyncStatus, store: string, api: Api, refused: set<int>)
    requires !st.isSyncing && IsValidStore(store)
    requires Retrying(api, ProbeQuery(false)).Ok?
    ensures var r := EnsureFullIntended(kind, t, st, store, api, refused);
            var total := MetadataTotal(Retrying(api, ProbeQuery(false)).body);
            r.status.totalRecords == total && (r.status.isFullyLoaded <==> StoreCount(r.table, store) >= total)
  {
    InitializedRecordsTotal(kind, t, st, store, api, refused);
  }

  /** Why a database-backed operation throws: a store `getCredentials` rejects, or a failed request. */
  datatype SyncFailure = StoreRejected(error: CredentialsError) | RequestFailed

  /** What `getCached...` returns. */
  datatype CachedView = CachedView(updating: bool, progress: nat, fullyLoaded: bool, data: seq<Doc>,
                                   store: string, storeDisplayName: string, total: nat)

  /**
   * `v` is the read path's answer for `store` from table `t` and status row
   * `st`: the flags and total of the row, every cached record once, newest
   * first, and `progress` the number of cached rows.
   */
  ghost predicate ViewOf(t: Table, st: SyncStatus, store: string, kind: RowKind, v: CachedView)
  {
    v.updating == st.isSyncing && v.fullyLoaded == st.isFullyLoaded && v.total == st.totalRecords
    && v.progress == |v.data| == StoreCount(t, store)
    && (forall d :: d in v.data <==> d in StoreDocs(t, store))
    && SortedBy(v.data, (a: Doc, b: Doc) => DocBefore(kind, a, b))
    && v.store == store && v.storeDisplayName == GetStoreDisplayName(store)
  }
}
