# Alegra invoice and bill searcher — a Dafny model of its caching core

The searcher keeps a local copy of the invoices and bills of four stores.
It fetches them from the Alegra accounting API, and a web page searches them,
including a mass search for phone IMEI numbers. This project models the core
of that system:

- **The back-end cache services.** Each comes in three shapes:
  - in memory per store: `bills.service.ts` and the two `.new` services;
  - in memory, single tenant: `invoices.service.ts`;
  - in PostgreSQL: `invoices.service.db.ts` and `bills.service.db.ts`.
- **The store registry** (`store-credentials.service.ts`).
- **The invoices page of the front end** (`invoices.component.ts`): its
  quick filter, its paging and its IMEI mass search.

The upstream API is an oracle `Api = (Query, nat) -> Response`. It maps the
query parameters a service sends (`start`, `limit`, `metadata`, the date
filter, `type=bill`) and the attempt number to a body or an HTTP failure.
Every request is therefore explicit:

- the metadata probe;
- the pages of 30 records, which the full loads group into concurrent
  batches (2, 3 or 2 per batch, depending on the service);
- the two-phase incremental refresh, which pages through `date_after` and
  then `date`.

What each service computes is stated in terms of these requests. Modules:

| module | file | models |
|---|---|---|
| `Upstream` | upstream.dfy | records, response bodies, queries |
| `RateLimit` | retry.dfy | `makeRequestWithRetry` (HTTP 429 back-off) |
| `Text` | text.dfy | JavaScript `<` on strings, `split(' ')[0]`, `toLowerCase`, `trim`, `includes`, `||` |
| `Seqs` | seqs.dfy | `filter`, `findIndex`, first-occurrence de-duplication |
| `Sorting` | sorting.dfy | the comparator sort, newest first |
| `Paging` | paging.dfy | page offsets, batch planning, `Promise.allSettled` / `Promise.all` |
| `CacheRepository` | repository.dfy | the `invoices`/`bills` tables, upserts, ordered reads, `sync_status` rows |
| `DbSync` | db_sync.dfy | the database full load and persistence pass |
| `Incremental` | incremental.dfy | the two-phase refresh of the in-memory services |
| `MemoryLoad` | memory_load.dfy | first page, background load, full fetch, manual-update merge |
| `BillsMemory` | bills_memory.dfy | `BillsService` in bills.service.ts |
| `PerStoreCache` | per_store_cache.dfy | bills.service.new.ts and invoices.service.new.ts (one class, a `typeBill` flag) |
| `InvoicesSingle` | invoices_single.dfy | invoices.service.ts |
| `BillsDb` | bills_db.dfy | bills.service.db.ts |
| `InvoicesDb` | invoices_db.dfy | invoices.service.db.ts |
| `StoreRegistry` | store_credentials.dfy | store-credentials.service.ts |
| `InvoiceSearch` | invoice_search.dfy | the page's filter, paging and mass search, as functions |
| `InvoicesPage` | invoices_component.dfy | `InvoicesComponent` and the mass search's loops |

Where a service's loop updates state step by step, it is a `method`. Its
`ensures` equates the result, or the new state, with a specification
function. The lemmas then prove what the service promises about that
function. The services whose fields change in place are classes:

- the per-store caches as `map<string, StoreCache>`;
- the database tables as `map<RowKey, Row>`;
- the page's fields.

## Model

| member | source | states |
|---|---|---|
| Upstream.MetadataTotal | searcher-back/src/bills/bills.service.new.ts:144 | `metadata?.total || 0`: the envelope's total when present, 0 for a bare array or a missing total |
| Upstream.DataOrEmpty | searcher-back/src/bills/bills.service.new.ts:109 | `data.data || []`: the envelope's records, or none |
| Upstream.ArrayOrData | searcher-back/src/bills/bills.service.db.ts:221 | a bare array is taken as is; an envelope is read as `data.data || []` |
| Upstream.DataOrSelf | searcher-back/src/bills/bills.service.ts:211-212 | `data.data || data || []` then `concat`: a bare array gives its records, an envelope its `data`, and an envelope without `data` adds itself as one element, so it never yields fewer elements than `ArrayOrData` |
| RateLimit.Pow2 | searcher-back/src/invoices/invoices.service.db.ts:39 | `Math.pow(2, k)` is at least 1 |
| RateLimit.MakeRequestWithRetry | searcher-back/src/invoices/invoices.service.db.ts:34-46 | the answer is the call at attempt `retryCount + n`, and that answer is not a retryable 429; each of the n repetitions followed a 429 while under the limit, and waited `1000 * 2^attempt` ms; never more than 3 repetitions |
| RateLimit.TotalDelay | searcher-back/src/invoices/invoices.service.db.ts:38-42 | the waits add up to `1000 * (2^(retryCount+n) - 2^retryCount)` ms |
| RateLimit.FirstCallBounds | searcher-back/src/invoices/invoices.service.db.ts:34-46 | a first call makes at most 4 attempts and waits at most 7 s; a success or a non-429 failure is returned at once |
| RateLimit.AlwaysRateLimited | searcher-back/src/invoices/invoices.service.db.ts:37-44 | an endpoint that always answers 429 is asked 4 times, with waits of 1000, 2000 and 4000 ms, and the 429 is rethrown |
| Text.LexLessTransitive | searcher-back/src/bills/bills.service.new.ts:402-407 | JavaScript string `<` is transitive |
| Text.LexLessTrichotomy | searcher-back/src/bills/bills.service.new.ts:402-407 | two strings are equal, or one is `<` the other |
| Text.LexLessIrreflexive | searcher-back/src/bills/bills.service.new.ts:402-407 | no string is `<` itself, so a record is never newer than its own stamp |
| Text.Or | searcher-back/src/bills/bills.service.new.ts:112 | `a || b` is `a` when `a` is a non-empty string, else `b` |
| Text.DayOf | searcher-back/src/bills/bills.service.ts:367-369 | `split(' ')[0]` is a prefix of the text with no space in it, ending at the first space or at the end |
| Text.LowerChar | searcher-front/src/app/modules/invoices/invoices/invoices.component.ts:164 | a Basic Latin or Latin-1 capital becomes its small letter, 32 code points on, which is no longer a capital; every other character is kept |
| Text.Lower | searcher-back/src/shared/store-credentials.service.ts:46 | `toLowerCase` keeps the length and lowers each character on its own, as `LowerChar` does |
| Text.TrimStartShape | searcher-front/src/app/modules/invoices/invoices/invoices.component.ts:161 | trimming the start drops exactly the leading white space |
| Text.TrimEndShape | searcher-front/src/app/modules/invoices/invoices/invoices.component.ts:161 | trimming the end drops exactly the trailing white space |
| Text.TrimEmptyIffAllSpace | searcher-front/src/app/modules/invoices/invoices/invoices.component.ts:293 | `trim()` gives `''` exactly when every character is white space |
| Seqs.Filter | searcher-back/src/bills/bills.service.new.ts:402-407 | `filter` keeps exactly the elements passing the test, and never lengthens |
| Seqs.FilterAppend | searcher-back/src/bills/bills.service.new.ts:410 | filtering a concatenation filters each part |
| Seqs.FindIndex | searcher-back/src/bills/bills.service.new.ts:411 | `findIndex` gives -1 exactly when no element has the key, and otherwise the first index with it |
| Seqs.KeptIsSubseq | searcher-back/src/bills/bills.service.new.ts:410-412 | the elements kept from index `i` on appear in the order they have in the input |
| Seqs.KeepFirst | searcher-back/src/bills/bills.service.new.ts:410-412 | the de-duplication keeps, for each id, the first element with it: kept ids are distinct, and each id present keeps its first element |
| Seqs.KeepFirstOrder | searcher-back/src/bills/bills.service.new.ts:410-412 | the kept elements are in input order, and the first element is always kept |
| Seqs.FilterIsSubseq | searcher-back/src/bills/bills.service.new.ts:402-407 | `filter` keeps the order of the elements it keeps |
| Seqs.CountKey | searcher-front/src/app/modules/invoices/invoices/invoices.component.ts:456-460 | a key's count is 0 exactly when `findIndex` finds nothing |
| Sorting.Insert | searcher-back/src/bills/bills.service.new.ts:111-115 | one insertion step adds exactly the element |
| Sorting.SortBy | searcher-back/src/bills/bills.service.new.ts:111-115 | the sort is a permutation of its input |
| Sorting.SortBySorted | searcher-back/src/bills/bills.service.new.ts:111-115 | with a total-preorder comparator, the output is in comparator order |
| Sorting.InsertSorted | searcher-back/src/bills/bills.service.new.ts:111-115 | inserting into a sorted run keeps it sorted |
| Sorting.NewestFirstIsTotalPreorder | searcher-back/src/bills/bills.service.ts:136-140 | "newer or equal by `datetime || date`" is a total preorder |
| Sorting.SortNewestFirst | searcher-back/src/bills/bills.service.ts:136-140 | the caches' sort is a permutation and leaves the records newest first |
| Paging.OffsetsMembership | searcher-back/src/invoices/invoices.service.db.ts:161 | the loop visits an offset exactly when it is below the total and on the 30-record grid from its start |
| Paging.OffsetsIncreasing | searcher-back/src/invoices/invoices.service.db.ts:161 | offsets strictly increase, so no page is asked twice |
| Paging.OffsetsCount | searcher-back/src/invoices/invoices.service.db.ts:161 | the loop asks `ceil((total - from) / 30)` pages |
| Paging.ChunksShape | searcher-back/src/invoices/invoices.service.db.ts:172 | joining the batches gives the offsets back; every batch has 1 to `size` offsets, all but the last exactly `size` |
| Paging.ChunksAppend | searcher-back/src/invoices/invoices.service.db.ts:172 | a full run of batches followed by one more batch chunks to that run plus the batch |
| Paging.PlanBatches | searcher-back/src/bills/bills.service.new.ts:157-207 | the for-loop with its pending buffer, flushed at `size` offsets or on the last page, produces exactly the offsets cut into consecutive batches of `size` |
| Paging.SettleBatchCases | searcher-back/src/invoices/invoices.service.db.ts:174-185 | `allSettled` never rejects and yields the fulfilled pages; `all` rejects exactly when a request failed, and otherwise agrees with `allSettled` |
| Paging.FulfilledDocsOfPages | searcher-back/src/invoices/invoices.service.db.ts:177-183 | a settled batch yields each fulfilled page's records in request order and nothing for a failed one |
| Paging.BatchResponses | searcher-back/src/bills/bills.service.new.ts:161-174 | a batch has one response per offset, in offset order |
| CacheRepository.Column | searcher-back/src/invoices/invoices.service.db.ts:237-238 | `x ? new Date(x) : null`: a column is null exactly when the text is missing or empty |
| CacheRepository.UpsertAppend | searcher-back/src/invoices/invoices.service.db.ts:227-249 | writing two runs of records one after the other equals writing their concatenation |
| CacheRepository.LastAccepted | searcher-back/src/invoices/invoices.service.db.ts:227-249 | the row that survives for an id is the last accepted record with that id, or there is none |
| CacheRepository.UpsertAt | searcher-back/src/invoices/invoices.service.db.ts:227-249 | after a write, a key of the store with an accepted id holds the last such record's row; every other key is unchanged |
| CacheRepository.UpsertOtherStores | searcher-back/src/invoices/invoices.service.db.ts:230-232 | a write for one store leaves every other store's rows as they were |
| CacheRepository.UpsertIdempotent | searcher-back/src/invoices/invoices.service.db.ts:234-249 | writing the same records twice gives the table that writing once gives |
| CacheRepository.UpsertWellFormed | searcher-back/src/invoices/invoices.service.db.ts:243-249 | every row stays stored under its record's id and is the entity built from that record |
| CacheRepository.AcceptedKeysCount | searcher-back/src/entities/invoice.entity.ts:6-10 | there is one composite key per distinct accepted id |
| CacheRepository.UpsertCountAtLeast | searcher-back/src/invoices/invoices.service.db.ts:203-204 | after a write the store's `count` is at least the number of distinct accepted ids |
| CacheRepository.LastAcceptedExists | searcher-back/src/invoices/invoices.service.db.ts:227-249 | an id has a surviving record exactly when some record with it was accepted |
| CacheRepository.UpsertIntoEmptyStore | searcher-back/src/invoices/invoices.service.db.ts:452-463 | writing into a store with no rows leaves exactly one row per distinct accepted id |
| CacheRepository.DeleteStore | searcher-back/src/invoices/invoices.service.db.ts:452 | `delete({ store })` removes exactly that store's rows and keeps the others unchanged |
| CacheRepository.DeleteStoreWellFormed | searcher-back/src/invoices/invoices.service.db.ts:452 | the deletion keeps every remaining row well formed |
| CacheRepository.CompareDesc | searcher-back/src/invoices/invoices.service.db.ts:96-99 | `DESC` on a nullable column gives 0 exactly on equal values |
| CacheRepository.CompareDescOrder | searcher-back/src/invoices/invoices.service.db.ts:96-99 | the `DESC` comparison is antisymmetric and transitive |
| CacheRepository.RowBeforeIsTotalPreorder | searcher-back/src/bills/bills.service.db.ts:113-116 | the `ORDER BY ... DESC, id DESC` order is a total preorder for both tables |
| CacheRepository.ListStore | searcher-back/src/bills/bills.service.db.ts:113-116 | `find({ where: { store }, order })` returns every row of the store once, in the query's order |
| CacheRepository.GatherStore | searcher-back/src/bills/bills.service.db.ts:113-116 | collecting the store's rows yields each of them once |
| CacheRepository.FindStore | searcher-back/src/invoices/invoices.service.db.ts:296-299 | the store's records, each once, in read order; the first is the one `findOne` with that order returns |
| CacheRepository.StatusRewritten | searcher-back/src/invoices/invoices.service.db.ts:158-206 | saving a store's status row twice leaves the second save |
| CacheRepository.StatusOf | searcher-back/src/bills/bills.service.db.ts:51-67 | a store without a status row reads as the newly created row (total 0, both flags false) |
| DbSync.PagesDocsAppend | searcher-back/src/invoices/invoices.service.db.ts:161-199 | the records of two runs of pages are the runs' records concatenated |
| DbSync.BatchPageResponse | searcher-back/src/invoices/invoices.service.db.ts:158-167 | a request of a batch gets its own page's response when its first attempt is not a 429, when it asks for the batch's last page, and always when `start` is bound per iteration; otherwise its repetitions read the shared `start`, the batch's last offset |
| DbSync.BatchResponsesArePages | searcher-back/src/invoices/invoices.service.db.ts:161-185 | the settled responses of requests whose repetitions would ask for another page still yield their own pages' records, in order, when none of those requests is answered 429 first |
| DbSync.BatchDocsArePages | searcher-back/src/invoices/invoices.service.db.ts:158-185 | a settled batch yields exactly its own pages' records, in offset order, when `start` is bound per iteration, or when no page but the batch's last is answered 429 on its first attempt |
| DbSync.BatchesDocsArePages | searcher-back/src/invoices/invoices.service.db.ts:158-199 | under the same condition for every batch, batching changes neither which records are collected nor their order |
| DbSync.FullLoad | searcher-back/src/invoices/invoices.service.db.ts:138-219 | the full load as written, with the loop's shared `start`, always ends with `isSyncing` false and leaves the last sync time alone |
| DbSync.FullLoadWith | searcher-back/src/invoices/invoices.service.db.ts:138-219 | a full load with either binding of `start` ends with `isSyncing` false and leaves the last sync time alone |
| DbSync.FullLoadWritesEveryPage | searcher-back/src/invoices/invoices.service.db.ts:138-219 | after a successful probe, the table receives the records the batches collect, which are every page's below the total in offset order unless a page other than a batch's last is answered 429 on its first attempt; `totalRecords` is the total and `isFullyLoaded` holds exactly when the store's count reached it; a failed probe changes no row and only clears `isSyncing` |
| DbSync.PerIterationLoadWritesEveryPage | searcher-back/src/invoices/invoices.service.db.ts:158-199 | with `start` bound per iteration, a full load writes every page below the total in offset order whatever the 429 answers, with the same total and flag |
| DbSync.LostPageOffsets | searcher-back/src/invoices/invoices.service.db.ts:142-161 | for 60 records the probe reports 60 and the load requests the pages at 0 and 30 as one batch |
| DbSync.LostPageEveryPage | searcher-back/src/invoices/invoices.service.db.ts:161-167 | each page requested with its own offset yields its own record |
| DbSync.LostPageSharedBatch | searcher-back/src/invoices/invoices.service.db.ts:158-185 | with the shared `start`, the batch yields the page at 30 twice when the page at 0 is first answered 429 |
| DbSync.LostPageLoads | searcher-back/src/invoices/invoices.service.db.ts:158-199 | for that endpoint the load as written collects record 31 twice, a per-iteration binding records 1 and 31 |
| DbSync.SharedStartLosesPage | searcher-back/src/invoices/invoices.service.db.ts:158-185 | the load as written writes record 31 twice and never record 1, which a per-iteration binding writes |
| DbSync.FullLoadPages | searcher-back/src/bills/bills.service.db.ts:197-249 | the pages requested are the multiples of 30 below the total, each once, increasing, in batches of 1 to 2 |
| DbSync.FullLoadComplete | searcher-back/src/invoices/invoices.service.db.ts:203-204 | when the records the batches collect carry at least `total` distinct accepted ids, the store is marked fully loaded |
| DbSync.FullLoadWithoutTotal | searcher-back/src/bills/bills.service.db.ts:183 | a probe without a total requests nothing and marks the store fully loaded with total 0 |
| DbSync.FullLoadOtherStores | searcher-back/src/invoices/invoices.service.db.ts:138-219 | a load for one store leaves every other store's rows unchanged |
| DbSync.Initialized | searcher-back/src/invoices/invoices.service.db.ts:115-133 | `initializeDataLoad` does nothing while a sync runs, and otherwise always ends with `isSyncing` false |
| DbSync.InitializedRecordsTotal | searcher-back/src/invoices/invoices.service.db.ts:115-133 | a load that starts writes the records its batches collect (every page's below the total when no page but a batch's last is answered 429 first), records the probe's total, and marks the store fully loaded exactly when it reached the total |
| DbSync.EnsureFullAsWritten | searcher-back/src/invoices/invoices.service.db.ts:469-492 | as written, the status row ends as it was read before the load |
| DbSync.EnsureFullLosesTotal | searcher-back/src/invoices/invoices.service.db.ts:470-490 | a pass from a row with total 0 whose probe reports a positive total leaves the row at 0, although the load recorded the total |
| DbSync.EnsureFullIntended | searcher-back/src/invoices/invoices.service.db.ts:469-492 | the corrected pass writes the same rows and ends with `isSyncing` false |
| DbSync.EnsureFullIntendedRecordsTotal | searcher-back/src/invoices/invoices.service.db.ts:469-492 | the corrected pass keeps the loaded total and the fully-loaded flag the load computed |
| Incremental.AfterPagesAppend | searcher-back/src/bills/bills.service.ts:372-414 | the phase-1 records of two runs of days are the runs' records concatenated |
| Incremental.NextDay | searcher-back/src/bills/bills.service.ts:403-407 | `datetime || date` always gives a cursor; `datetime` alone throws exactly when it is missing; a moved cursor is a day with no space |
| Incremental.AfterFromShape | searcher-back/src/bills/bills.service.ts:372-414 | a finished phase 1 from any loop state has the shape `AfterShaped` describes |
| Incremental.AfterShapeLast | searcher-back/src/bills/bills.service.ts:392-400 | a request whose page is empty, short or reaches the total ends phase 1 |
| Incremental.AfterLastShaped | searcher-back/src/bills/bills.service.ts:392-400 | the last request's page is appended and its day recorded |
| Incremental.AfterShapeStep | searcher-back/src/bills/bills.service.ts:399-407 | a full page that moves the cursor extends the shape of the rest of phase 1 |
| Incremental.AfterDaysStep | searcher-back/src/bills/bills.service.ts:403-407 | the days requested continue from the moved cursor |
| Incremental.AfterDocsStep | searcher-back/src/bills/bills.service.ts:397 | the records collected are the pages of the days requested |
| Incremental.AfterPhaseShape | searcher-back/src/bills/bills.service.ts:372-414 | phase 1 requests `date_after` days starting at the cache's day; its records are exactly those pages; every request succeeded; every page but the last was full and moved the cursor; it stopped on an empty or short page or once the total was reached |
| Incremental.AfterFromHealthy | searcher-back/src/bills/bills.service.ts:372-414 | with every request answered (and a `datetime` on every record where only `datetime` is read), phase 1 from any state succeeds |
| Incremental.AfterPhaseHealthy | searcher-back/src/invoices/invoices.service.ts:117-166 | phase 1 fails only on a failed request, or on a missing `datetime` where only `datetime` is read |
| Incremental.SameDayFromPages | searcher-back/src/bills/bills.service.ts:417-458 | phase 2 from any state appends the next k pages of the day; those requests succeeded, and all but the last were full |
| Incremental.SameDayShift | searcher-back/src/bills/bills.service.ts:450-452 | the facts about the pages from `start + 30` on, with the full page at `start`, hold from `start` |
| Incremental.SameDayPhasePages | searcher-back/src/bills/bills.service.ts:417-458 | phase 2 collects the first k pages of the day, each answered and all but the last full; a failure keeps what came before |
| Incremental.SameDayFirstFailure | searcher-back/src/bills/bills.service.ts:456-458 | a failing first phase-2 request leaves phase 2 empty instead of throwing |
| Incremental.MergeNew | searcher-back/src/bills/bills.service.ts:461-471 | the merge has distinct ids, and each record is from phase 1 or is a same-day record newer than the last stamp |
| Incremental.MergeNewOrder | searcher-back/src/bills/bills.service.ts:461-471 | the merge keeps the order of the phase-1 records followed by the newer same-day records, so phase 1's first record comes first whenever phase 1 found any |
| Incremental.MergeNewComplete | searcher-back/src/bills/bills.service.ts:461-471 | nothing is lost: every phase-1 id and every newer same-day id is in the merge, and phase 1's first record wins its id |
| Incremental.FetchNew | searcher-back/src/bills/bills.service.ts:357-481 | no last stamp gives `[]`; a result has distinct ids and is newest first where the service sorts |
| Incremental.DistinctIdsOnce | searcher-back/src/bills/bills.service.ts:469-471 | records with distinct ids occur at most once each |
| Incremental.MultisetIdsDistinct | searcher-back/src/bills/bills.service.ts:474-478 | the sort of a run with distinct ids keeps the ids distinct |
| Incremental.FetchAfter | searcher-back/src/bills/bills.service.ts:372-414 | the phase-1 loop computes `AfterPhase` |
| Incremental.FetchSameDay | searcher-back/src/bills/bills.service.ts:417-458 | the phase-2 loop computes `SameDayPhase` |
| Incremental.FetchNewDocs | searcher-back/src/invoices/invoices.service.new.ts:305-415 | `fetchNew...` computes `FetchNew`, for all three variants |
| MemoryLoad.CacheOf | searcher-back/src/bills/bills.service.ts:51-62 | an unseen store reads as the empty cache record |
| MemoryLoad.MemPagesDocsAppend | searcher-back/src/bills/bills.service.new.ts:160-207 | the records of two runs of pages are the runs' records concatenated |
| MemoryLoad.BatchOfPages | searcher-back/src/bills/bills.service.ts:205-212 | a settled batch yields its pages' records in order |
| MemoryLoad.BatchRejected | searcher-back/src/bills/bills.service.new.ts:179-184 | `Promise.all` rejects a batch exactly when one of its pages failed, and otherwise yields all its pages |
| MemoryLoad.InitialDocs | searcher-back/src/bills/bills.service.new.ts:92-120 | the first page succeeds exactly when its request does, and is then its records, sorted newest first |
| MemoryLoad.CollectAllSucceeds | searcher-back/src/bills/bills.service.ts:310-341 | the batch loop of a full fetch succeeds exactly when every page was answered |
| MemoryLoad.CollectAllPages | searcher-back/src/bills/bills.service.ts:310-341 | a successful loop appends every page in order and `progress` counts the result; a failed one keeps at least the starting count |
| MemoryLoad.FetchAllPages | searcher-back/src/bills/bills.service.ts:278-351 | a full fetch succeeds exactly when the first page and every later page below the total were answered; it then holds exactly those records, sorted newest first or in page order, and `progress` counts them |
| MemoryLoad.FetchAllDocs | searcher-back/src/invoices/invoices.service.ts:48-110 | the full-fetch loop computes `FetchAll` |
| MemoryLoad.AppendBatches | searcher-back/src/bills/bills.service.ts:186-246 | the background batch loop changes only the cache and `progress` |
| MemoryLoad.AppendBatchesAdds | searcher-back/src/bills/bills.service.ts:224-233 | the loop keeps every cached record and adds exactly the settled batches' records |
| MemoryLoad.AllAddsSettled | searcher-back/src/bills/bills.service.ts:205-212 | under `allSettled` the batches add every answered page's records |
| MemoryLoad.AllAddsNothing | searcher-back/src/bills/bills.service.new.ts:178-204 | when every page fails, no batch adds anything |
| MemoryLoad.Background | searcher-back/src/bills/bills.service.ts:150-272 | the background load always ends with `updating` false; with the count check, it reports the store complete only when the probe was answered and the cache reached the total |
| MemoryLoad.BackgroundKeeps | searcher-back/src/bills/bills.service.ts:150-272 | the background load never drops a cached record; when it loads pages, the cache ends newest first and holds the old records plus the settled batches' records |
| MemoryLoad.BackgroundSettledPages | searcher-back/src/bills/bills.service.ts:186-262 | under `allSettled` with the count check, the cache gains every answered page's records and is fully loaded exactly when it reached the total |
| MemoryLoad.BackgroundClaimsComplete | searcher-back/src/bills/bills.service.new.ts:211-219 | without the count check, a load whose pages all fail reports the store fully loaded below the total |
| MemoryLoad.RunBackground | searcher-back/src/bills/bills.service.new.ts:125-227 | `continueLoadingInBackground` computes `Background` |
| MemoryLoad.LoadBatches | searcher-back/src/bills/bills.service.new.ts:160-208 | the batch loop computes `AppendBatches` |
| MemoryLoad.Prepended | searcher-back/src/bills/bills.service.ts:543-553 | the manual update's cache holds the new records and the old ones: sorted newest first, or new ones in front where the service does not sort |
| MemoryLoad.WithCache | searcher-back/src/bills/bills.service.ts:51-62 | `getStoreCache` creates the store's record once and changes no other record |
| MemoryLoad.WithCacheWrites | searcher-back/src/bills/bills.service.ts:51-62 | `getStoreCache` writes back the record it reads |
| MemoryLoad.Overwritten | searcher-back/src/bills/bills.service.ts:79-110 | writing a store's record twice leaves the second |
| MemoryLoad.StampOf | searcher-back/src/bills/bills.service.ts:88-90 | the cursor kept is `datetime || date` in bills.service.ts, and `datetime` in the others |
| MemoryLoad.InitialLoaded | searcher-back/src/bills/bills.service.new.ts:60-86 | the first page becomes the cache and `progress`, and its first record's stamp becomes the cursor; a failure only clears `updating` |
| MemoryLoad.FullyLoaded | searcher-back/src/bills/bills.service.ts:505-520 | a full fetch replaces the cache, counts it and marks the store complete; a failure keeps the records and the `progress` reached |
| MemoryLoad.Merged | searcher-back/src/bills/bills.service.new.ts:431-440 | new records go in front (re-sorted where the service sorts), `progress` is the new length, and the cursor is the first new stamp; nothing new changes nothing |
| MemoryLoad.InitialFor | searcher-back/src/bills/bills.service.new.ts:92-93 | a rejected store throws before any request |
| MemoryLoad.NewFor | searcher-back/src/bills/bills.service.new.ts:310-311 | a rejected store makes the refresh throw before any request |
| BillsMemory.ManualRefresh | searcher-back/src/bills/bills.service.ts:525-565 | nothing happens while an update runs; otherwise new bills are merged, sorted newest first and counted, and the cursor moves; a refresh without new bills and a failure change nothing; `updating` ends false |
| BillsMemory.ManualRefreshAddsOnce | searcher-back/src/bills/bills.service.ts:543-553 | each bill the refresh returns occurs in the new cache exactly once more than before |
| BillsMemory.BillsMemoryService.constructor | searcher-back/src/bills/bills.service.ts:29-49 | no store is cached |
| BillsMemory.BillsMemoryService.GetStoreCache | searcher-back/src/bills/bills.service.ts:51-62 | returns the store's record and creates it empty on first access |
| BillsMemory.BillsMemoryService.InitializeStoreIfNeeded | searcher-back/src/bills/bills.service.ts:67-110 | only an empty, idle store gets its first page, and the background load starts exactly when that page arrived |
| BillsMemory.BillsMemoryService.ContinueLoadingInBackground | searcher-back/src/bills/bills.service.ts:150-272 | the store's record becomes `Background` (batches of 2, `allSettled`, pages read by `DataOrSelf`, count check) |
| BillsMemory.BillsMemoryService.FetchAllBills | searcher-back/src/bills/bills.service.ts:278-351 | every bill of a valid store (later pages read by `DataOrSelf`), or the failure; `progress` follows the fetch; an invalid store throws and changes nothing |
| BillsMemory.BillsMemoryService.CollectWithProgress | searcher-back/src/bills/bills.service.ts:289-341 | the full fetch with pages read by `DataOrSelf`, with `progress` left at the number of elements collected |
| BillsMemory.BillsMemoryService.FetchNewBills | searcher-back/src/bills/bills.service.ts:357-481 | the two-phase refresh from the store's cursor; an invalid store throws first |
| BillsMemory.BillsMemoryService.ClearCacheAndReload | searcher-back/src/bills/bills.service.ts:486-500 | the record is emptied and the first page is loaded again |
| BillsMemory.BillsMemoryService.LoadAllBillsFromApi | searcher-back/src/bills/bills.service.ts:505-520 | the full fetch replaces the cache and marks the store complete; a failure is rethrown |
| BillsMemory.BillsMemoryService.UpdateBillsManually | searcher-back/src/bills/bills.service.ts:525-565 | an empty cache is reloaded from its first page; otherwise the record becomes `ManualRefresh` of the refresh's answer |
| BillsMemory.BillsMemoryService.RefreshBills | searcher-back/src/bills/bills.service.ts:543 | the refresh's answer, with no record changed |
| BillsMemory.BillsMemoryService.GetCachedBills | searcher-back/src/bills/bills.service.ts:571-588 | rejects an invalid store; otherwise initialises it if needed and returns its flags, `progress`, records and display name |
| PerStoreCache.ManualUpdateAsWritten | searcher-back/src/bills/bills.service.new.ts:427-448 | a successful refresh clears `updating`, merges, sorts, counts and moves the cursor to the first new `datetime` |
| PerStoreCache.ManualUpdateStaysUpdating | searcher-back/src/bills/bills.service.new.ts:429-430 | a throwing refresh leaves `updating` set and the records unchanged, and a later manual update whose refresh succeeds clears it |
| PerStoreCache.RejectedStoreStaysUpdating | searcher-back/src/bills/bills.service.new.ts:311 | an invalid store makes every manual update stick in `updating` |
| PerStoreCache.ManualUpdateIntended | searcher-back/src/bills/bills.service.ts:560-564 | with a `finally`, `updating` ends false, and a failed refresh changes nothing else |
| PerStoreCache.PerStoreCacheService.constructor | searcher-back/src/bills/bills.service.new.ts:27-30 | no store is cached; the service is for bills or for invoices |
| PerStoreCache.PerStoreCacheService.GetStoreCache | searcher-back/src/bills/bills.service.new.ts:32-43 | returns the store's record and creates it empty on first access |
| PerStoreCache.PerStoreCacheService.InitializeStoreIfNeeded | searcher-back/src/invoices/invoices.service.new.ts:48-86 | only an empty, idle store gets its first page; the cursor is its first `datetime`; the background load starts exactly when the page arrived |
| PerStoreCache.PerStoreCacheService.ContinueLoadingInBackground | searcher-back/src/invoices/invoices.service.new.ts:124-224 | the record becomes `Background` (batches of 3, `Promise.all`, no count check) |
| PerStoreCache.PerStoreCacheService.FetchAll | searcher-back/src/invoices/invoices.service.new.ts:230-299 | every record of a valid store newest first, or the failure; `progress` follows the fetch |
| PerStoreCache.PerStoreCacheService.CollectWithProgress | searcher-back/src/invoices/invoices.service.new.ts:241-290 | the full fetch with pages read by `DataOrSelf`, with `progress` left at the number of elements collected |
| PerStoreCache.PerStoreCacheService.FetchNew | searcher-back/src/invoices/invoices.service.new.ts:305-415 | the two-phase refresh from the store's last `datetime`; an invalid store throws first |
| PerStoreCache.PerStoreCacheService.RefreshStore | searcher-back/src/invoices/invoices.service.new.ts:423 | the refresh's answer, with no record changed |
| PerStoreCache.PerStoreCacheService.UpdateManually | searcher-back/src/invoices/invoices.service.new.ts:420-441 | the record becomes `ManualUpdateAsWritten` of the refresh's answer |
| PerStoreCache.PerStoreCacheService.GetCached | searcher-back/src/invoices/invoices.service.new.ts:447-464 | rejects an invalid store; otherwise initialises it if needed and returns its view |
| InvoicesSingle.StartedUp | searcher-back/src/invoices/invoices.service.ts:24-41 | the fetched invoices replace the cache, are counted and set the cursor; a failure keeps the cache; `updating` ends false |
| InvoicesSingle.StartUpLoadsEveryPage | searcher-back/src/invoices/invoices.service.ts:24-110 | start-up loads the first page followed by every later page below the total, in order, when all are answered, and otherwise keeps the cache |
| InvoicesSingle.ManualUpdateAsWritten | searcher-back/src/invoices/invoices.service.ts:225-239 | new invoices go in front unsorted, are counted and move the cursor; a throwing refresh leaves `updating` set |
| InvoicesSingle.ManualUpdateStaysUpdating | searcher-back/src/invoices/invoices.service.ts:226-227 | a failing phase-1 request leaves the service reporting an update in progress until a later manual update's refresh succeeds, which clears it |
| InvoicesSingle.ManualUpdateIntended | searcher-back/src/invoices/invoices.service.ts:38-41 | with a `finally`, as start-up has, `updating` ends false |
| InvoicesSingle.ManualUpdateFront | searcher-back/src/invoices/invoices.service.ts:229 | the old cache follows the new invoices unchanged, and the new invoices have distinct ids |
| InvoicesSingle.InvoicesService.constructor | searcher-back/src/invoices/invoices.service.ts:15-20 | empty cache, idle, `progress` 0, no cursor |
| InvoicesSingle.InvoicesService.OnModuleInit | searcher-back/src/invoices/invoices.service.ts:22-42 | the fields become `StartedUp` of the full fetch |
| InvoicesSingle.InvoicesService.FetchAllInvoices | searcher-back/src/invoices/invoices.service.ts:48-110 | every invoice in page order, or the failure; only `progress` changes |
| InvoicesSingle.InvoicesService.FetchNewInvoices | searcher-back/src/invoices/invoices.service.ts:117-220 | the two-phase refresh from the last `datetime`, unsorted |
| InvoicesSingle.InvoicesService.UpdateInvoicesManually | searcher-back/src/invoices/invoices.service.ts:225-239 | the fields become `ManualUpdateAsWritten` of the refresh's answer |
| InvoicesSingle.InvoicesService.GetCachedInvoices | searcher-back/src/invoices/invoices.service.ts:245-251 | returns `updating`, `progress` and the cache as they stand |
| BillsDb.TodayBills | searcher-back/src/bills/bills.service.db.ts:356-376 | today's request succeeds exactly when the endpoint answers, with its array-or-`data` records |
| BillsDb.Unseen | searcher-back/src/bills/bills.service.db.ts:384-393 | exactly the records whose id the store does not cache yet |
| BillsDb.Recount | searcher-back/src/bills/bills.service.db.ts:405-408 | `Math.max(totalRecords, count)`: no lower than either, equal to one of them, nothing else changed |
| BillsDb.RefreshTodayKeepsCached | searcher-back/src/bills/bills.service.db.ts:384-398 | a refresh never rewrites a cached bill, caches every bill of today's answer, and adds a row when something was new |
| BillsDb.ManualUpdateAsWritten | searcher-back/src/bills/bills.service.db.ts:294-329 | as written, after a refresh the status row ends as it was read at the start |
| BillsDb.ManualUpdateLosesCount | searcher-back/src/bills/bills.service.db.ts:297-328 | from a total equal to the count, a refresh that inserts a bill leaves the total below the count |
| BillsDb.ManualUpdateIntended | searcher-back/src/bills/bills.service.db.ts:294-329 | the corrected update writes the same rows and ends with `isSyncing` false |
| BillsDb.ManualUpdateIntendedCounts | searcher-back/src/bills/bills.service.db.ts:405-408 | the corrected update keeps a total no lower than before or than the cached count |
| BillsDb.ReloadKeepsRows | searcher-back/src/bills/bills.service.db.ts:425-437 | `clearCacheAndReload` deletes no bill, and ends with `isSyncing` false |
| BillsDb.BillsDbService.constructor | searcher-back/src/bills/bills.service.db.ts:22-30 | empty tables |
| BillsDb.BillsDbService.GetSyncStatus | searcher-back/src/bills/bills.service.db.ts:51-81 | an existing row is returned; a missing one is created, or read back after a racing insert, or the error is rethrown |
| BillsDb.BillsDbService.ReadStatus | searcher-back/src/bills/bills.service.db.ts:51-67 | the row, created when missing |
| BillsDb.BillsDbService.GetCachedBills | searcher-back/src/bills/bills.service.db.ts:86-127 | rejects an invalid store; otherwise a background load starts exactly when the store is not fully loaded or empty and no sync runs, and the view is the row's flags with every cached bill once by `date DESC, id DESC` |
| BillsDb.BillsDbService.ResetSyncStatus | searcher-back/src/bills/bills.service.db.ts:155-165 | clears both flags and the sync time, keeping the total |
| BillsDb.BillsDbService.SaveBillsToDb | searcher-back/src/bills/bills.service.db.ts:273-289 | one bulk save: every bill replaces or creates its row, with `datetime` null |
| BillsDb.BillsDbService.WriteBatches | searcher-back/src/bills/bills.service.db.ts:190-249 | each batch's settled bills, as its requests sharing the loop's `start` receive them, are saved in batch order |
| BillsDb.BillsDbService.LoadAllBillsFromApi | searcher-back/src/bills/bills.service.db.ts:170-268 | an invalid store throws before anything; otherwise the tables become `FullLoad`, the load as written with the shared `start` |
| BillsDb.BillsDbService.LoadFromApi | searcher-back/src/bills/bills.service.db.ts:173-267 | the tables become `FullLoad` of the store, the load as written with the shared `start` |
| BillsDb.BillsDbService.InitializeDataLoad | searcher-back/src/bills/bills.service.db.ts:132-150 | the tables become `Initialized` |
| BillsDb.BillsDbService.FetchNewBills | searcher-back/src/bills/bills.service.db.ts:334-420 | an invalid store throws; otherwise today's uncached bills are written, the total is raised to the count when something was added, and a failed request throws |
| BillsDb.BillsDbService.UpdateBillsManually | searcher-back/src/bills/bills.service.db.ts:294-329 | the tables become `ManualUpdateAsWritten` |
| BillsDb.BillsDbService.ClearCacheAndReload | searcher-back/src/bills/bills.service.db.ts:425-437 | no row is deleted; both flags are reset, then `initializeDataLoad` runs |
| BillsDb.BillsDbService.EnsureFullDataPersistence | searcher-back/src/bills/bills.service.db.ts:442-465 | the tables become `EnsureFullAsWritten`; it throws exactly for an invalid store when no sync runs |
| InvoicesDb.NewInvoices | searcher-back/src/invoices/invoices.service.db.ts:313-413 | the refresh succeeds exactly when both requests do; its records have distinct ids, each from the `date_after` page or a same-day record newer than the newest row |
| InvoicesDb.NewInvoicesWithoutStamp | searcher-back/src/invoices/invoices.service.db.ts:389-394 | when the newest row has no `datetime`, only the `date_after` page is written |
| InvoicesDb.ReloadIsExact | searcher-back/src/invoices/invoices.service.db.ts:448-464 | a reload leaves exactly one row per distinct accepted id of the records the batches collect, the total recorded, `isFullyLoaded` exactly when those ids reach it, and other stores untouched |
| InvoicesDb.InvoicesDbService.constructor | searcher-back/src/invoices/invoices.service.db.ts:22-30 | empty tables |
| InvoicesDb.InvoicesDbService.GetSyncStatus | searcher-back/src/invoices/invoices.service.db.ts:51-68 | the store's row, created when missing |
| InvoicesDb.InvoicesDbService.GetCachedInvoices | searcher-back/src/invoices/invoices.service.db.ts:73-110 | rejects an invalid store; otherwise a background load starts exactly when the total is 0 and no sync runs, and the view has every cached invoice once, newest first |
| InvoicesDb.InvoicesDbService.SaveInvoicesToDb | searcher-back/src/invoices/invoices.service.db.ts:224-258 | each record replaces or creates its row; a failing write is skipped |
| InvoicesDb.InvoicesDbService.WriteBatches | searcher-back/src/invoices/invoices.service.db.ts:158-199 | each batch's settled records, as its requests sharing the loop's `start` receive them, are written in batch order |
| InvoicesDb.InvoicesDbService.LoadAllInvoicesFromApi | searcher-back/src/invoices/invoices.service.db.ts:138-219 | an invalid store throws before anything; otherwise the tables become `FullLoad`, the load as written with the shared `start` |
| InvoicesDb.InvoicesDbService.LoadFromApi | searcher-back/src/invoices/invoices.service.db.ts:140-218 | the tables become `FullLoad` of the store, the load as written with the shared `start` |
| InvoicesDb.InvoicesDbService.InitializeDataLoad | searcher-back/src/invoices/invoices.service.db.ts:115-133 | the tables become `Initialized` |
| InvoicesDb.InvoicesDbService.FetchNewInvoices | searcher-back/src/invoices/invoices.service.db.ts:288-443 | an invalid store throws; an empty store gets a full load; otherwise `NewInvoices` from the newest row is written, or a failure throws and writes nothing |
| InvoicesDb.InvoicesDbService.UpdateInvoicesManually | searcher-back/src/invoices/invoices.service.db.ts:263-283 | the refresh's rows are written, but the status row ends as read at the start |
| InvoicesDb.InvoicesDbService.ClearCacheAndReload | searcher-back/src/invoices/invoices.service.db.ts:448-464 | the store's rows are deleted, its row is reset, then `initializeDataLoad` runs |
| InvoicesDb.InvoicesDbService.EnsureFullDataPersistence | searcher-back/src/invoices/invoices.service.db.ts:469-492 | the tables become `EnsureFullAsWritten`; it throws exactly for an invalid store when no sync runs |
| StoreRegistry.Get | searcher-back/src/shared/store-credentials.service.ts:22 | a configuration value is present exactly when it is set |
| StoreRegistry.ListedIffIn | searcher-back/src/shared/store-credentials.service.ts:64 | `includes` is membership |
| StoreRegistry.GetAllValidStores | searcher-back/src/shared/store-credentials.service.ts:78-80 | four stores, exactly those `isValidStore` accepts after lower-casing |
| StoreRegistry.LowerIdempotent | searcher-back/src/shared/store-credentials.service.ts:46 | lower-casing twice changes nothing more |
| StoreRegistry.ValidityIgnoresCase | searcher-back/src/shared/store-credentials.service.ts:62-65 | a store is valid exactly when its lower-cased name is |
| StoreRegistry.GetStoreDisplayName | searcher-back/src/shared/store-credentials.service.ts:67-76 | a valid store's display name, and the name itself otherwise |
| StoreRegistry.DisplayNamesDistinct | searcher-back/src/shared/store-credentials.service.ts:68-73 | two valid stores have the same display name exactly when they are the same store |
| StoreRegistry.WithFallback | searcher-back/src/shared/store-credentials.service.ts:20-42 | the store's own variable when set and non-empty, else the shared one |
| StoreRegistry.InitialCredentials | searcher-back/src/shared/store-credentials.service.ts:18-43 | exactly the four stores are registered, Medellín with the shared variables |
| StoreRegistry.FallbackToShared | searcher-back/src/shared/store-credentials.service.ts:20-42 | a store without variables of its own gets Medellín's credentials |
| StoreRegistry.StoreCredentialsService.constructor | searcher-back/src/shared/store-credentials.service.ts:14-16 | the registry holds `InitialCredentials` of the configuration |
| StoreRegistry.StoreCredentialsService.GetCredentials | searcher-back/src/shared/store-credentials.service.ts:45-60 | an invalid store throws; otherwise the lower-cased store's credentials, which every valid store has |
| InvoiceSearch.FilterInvoices | searcher-front/src/app/modules/invoices/invoices/invoices.component.ts:158-222 | never more invoices than loaded, and every one when the trimmed filter is empty |
| InvoiceSearch.KeepMatching | searcher-front/src/app/modules/invoices/invoices/invoices.component.ts:166-221 | the filter never lengthens the listing |
| InvoiceSearch.KeepMatchingMembers | searcher-front/src/app/modules/invoices/invoices/invoices.component.ts:166-221 | an invoice is kept exactly when it matches |
| InvoiceSearch.KeepMatchingIsSubseq | searcher-front/src/app/modules/invoices/invoices/invoices.component.ts:166-221 | the kept invoices stay in order |
| InvoiceSearch.FilterInvoicesMembers | searcher-front/src/app/modules/invoices/invoices/invoices.component.ts:161-221 | a non-blank filter keeps exactly the invoices holding the trimmed, lower-cased text in one of the listed fields |
| InvoiceSearch.BlankFilterSelectsAll | searcher-front/src/app/modules/invoices/invoices/invoices.component.ts:161-163 | a filter of white space alone selects every invoice |
| InvoiceSearch.FilterKeepsOrder | searcher-front/src/app/modules/invoices/invoices/invoices.component.ts:158-222 | the filtered listing is a subsequence of the loaded one |
| InvoiceSearch.PageOfContents | searcher-front/src/app/modules/invoices/invoices/invoices.component.ts:224-228 | a page holds at most `rows` invoices: those from `page * rows` on, clipped to the end |
| InvoiceSearch.Normalize | searcher-front/src/app/modules/invoices/invoices/invoices.component.ts:302-339 | a run of 15 or more digits is cut to its first 15, a shorter one is kept as is, and the original text is kept |
| InvoiceSearch.CleanSet | searcher-front/src/app/modules/invoices/invoices/invoices.component.ts:343-348 | the set of normalised numbers found |
| InvoiceSearch.CleanSetAppend | searcher-front/src/app/modules/invoices/invoices/invoices.component.ts:344-348 | one more IMEI adds its number to the set |
| InvoiceSearch.UniqueImeisCover | searcher-front/src/app/modules/invoices/invoices/invoices.component.ts:343-350 | the `Map` keeps one IMEI per number and loses no number |
| InvoiceSearch.UniqueImeisFirst | searcher-front/src/app/modules/invoices/invoices/invoices.component.ts:345-347 | the IMEI kept for a number is the first one found with it |
| InvoiceSearch.FindIndexPrefix | searcher-front/src/app/modules/invoices/invoices/invoices.component.ts:345-347 | a lookup in `s + [x]` finds a key in `s` first |
| InvoiceSearch.Patterns | searcher-front/src/app/modules/invoices/invoices/invoices.component.ts:365-371 | five patterns, the first the clean number and the last `IMEI <number>` |
| InvoiceSearch.FindItem | searcher-front/src/app/modules/invoices/invoices/invoices.component.ts:393-399 | `find` gives nothing exactly when no item holds the pattern, and otherwise an item that holds it |
| InvoiceSearch.SalesHitIff | searcher-front/src/app/modules/invoices/invoices/invoices.component.ts:374-405 | a sale holds the IMEI exactly when some pattern is in its annotation or in one of its items |
| InvoiceSearch.PurchaseHitLastPatternOnly | searcher-front/src/app/modules/invoices/invoices/invoices.component.ts:374-417 | when no purchase item holds a pattern, the loop as written answers with the last pattern's annotation test alone |
| InvoiceSearch.PurchaseAnnotationMissed | searcher-front/src/app/modules/invoices/invoices/invoices.component.ts:379-417 | a purchase with the bare IMEI in its annotation, but not `IMEI <number>`, and no item mentioning it, is reported without the IMEI |
| InvoiceSearch.PurchaseHit | searcher-front/src/app/modules/invoices/invoices/invoices.component.ts:406-417 | the corrected purchase test holds exactly when some pattern is in the annotation or in some purchase item |
| InvoiceSearch.FoundInEntries | searcher-front/src/app/modules/invoices/invoices/invoices.component.ts:421-436 | no more entries than invoices, each for the searched number |
| InvoiceSearch.HitIndices | searcher-front/src/app/modules/invoices/invoices/invoices.component.ts:358-441 | the positions of the invoices holding the IMEI: each holds it, they increase, and none is missed |
| InvoiceSearch.FoundInExact | searcher-front/src/app/modules/invoices/invoices/invoices.component.ts:358-441 | the entries for one IMEI are, in order, one `FoundOf` per invoice holding it, and no others |
| InvoiceSearch.FoundInMembers | searcher-front/src/app/modules/invoices/invoices/invoices.component.ts:358-441 | an entry is reported for an IMEI exactly when it is the entry of an invoice holding it |
| InvoiceSearch.SearchFoundMembers | searcher-front/src/app/modules/invoices/invoices/invoices.component.ts:358-446 | an entry is reported exactly when it is one of the entries of some searched IMEI |
| InvoiceSearch.FoundInEmpty | searcher-front/src/app/modules/invoices/invoices/invoices.component.ts:358-445 | an IMEI has no entry exactly when no invoice holds it |
| InvoiceSearch.NotFoundIff | searcher-front/src/app/modules/invoices/invoices/invoices.component.ts:443-445 | a number is reported not found exactly when it was searched and no invoice holds it |
| InvoiceSearch.AddInvoiceKeeps | searcher-front/src/app/modules/invoices/invoices/invoices.component.ts:438-440 | adding keeps ids distinct, makes the id present, loses no id, and brings in only the added invoice |
| InvoiceSearch.MatchForKeeps | searcher-front/src/app/modules/invoices/invoices/invoices.component.ts:360-441 | the invoices added for one IMEI keep the ids distinct and keep every earlier id |
| InvoiceSearch.MatchForSound | searcher-front/src/app/modules/invoices/invoices/invoices.component.ts:360-441 | every invoice added for one IMEI holds it |
| InvoiceSearch.MatchForCovers | searcher-front/src/app/modules/invoices/invoices/invoices.component.ts:360-441 | every invoice holding the IMEI has its id among those added |
| InvoiceSearch.MatchingDistinct | searcher-front/src/app/modules/invoices/invoices/invoices.component.ts:438-440 | `matchingInvoices` has no repeated id |
| InvoiceSearch.MatchingSound | searcher-front/src/app/modules/invoices/invoices/invoices.component.ts:357-446 | every matching invoice is a loaded invoice holding one of the IMEIs |
| InvoiceSearch.MatchingCovers | searcher-front/src/app/modules/invoices/invoices/invoices.component.ts:357-446 | every loaded invoice holding one of the IMEIs has its id among the matching ones |
| InvoiceSearch.OccurrencesMany | searcher-front/src/app/modules/invoices/invoices/invoices.component.ts:456-465 | an entry's number counts more than once exactly when another entry has it |
| InvoiceSearch.MarkDuplicates | searcher-front/src/app/modules/invoices/invoices/invoices.component.ts:456-465 | every entry keeps its number, invoice and item, and is marked exactly when another entry has its number |
| InvoiceSearch.NormalizeAll | searcher-front/src/app/modules/invoices/invoices/invoices.component.ts:302-339 | every run found is normalised, in order |
| InvoiceSearch.KeptIsFirstRun | searcher-front/src/app/modules/invoices/invoices/invoices.component.ts:343-350 | the first run of each number is kept |
| InvoiceSearch.DistinctCleansCount | searcher-front/src/app/modules/invoices/invoices/invoices.component.ts:449 | distinct numbers: as many numbers as IMEIs kept |
| InvoiceSearch.MassSearchReports | searcher-front/src/app/modules/invoices/invoices/invoices.component.ts:292-468 | as many numbers are searched as distinct numbers in the text; a number is not found exactly when no invoice holds its first run; matching invoices have distinct ids, each holds some run, and all that hold a first run are there; the entries found are, up to their duplicate flags, exactly one per first run and invoice holding it |
| InvoiceSearch.MassFoundSound | searcher-front/src/app/modules/invoices/invoices/invoices.component.ts:292-468 | every reported entry, its duplicate flag aside, is the entry of a number's first run and an invoice holding it |
| InvoiceSearch.MassFoundCovers | searcher-front/src/app/modules/invoices/invoices/invoices.component.ts:292-468 | every invoice holding a number's first run has its entry among the reported ones |
| InvoiceSearch.MassNotFound | searcher-front/src/app/modules/invoices/invoices/invoices.component.ts:443-445 | a number is not found exactly when it is in the text and no invoice holds its first run |
| InvoiceSearch.MassMatchingSound | searcher-front/src/app/modules/invoices/invoices/invoices.component.ts:438-440 | every matching invoice holds some run of the text |
| InvoiceSearch.MassMatchingCovers | searcher-front/src/app/modules/invoices/invoices/invoices.component.ts:357-446 | every invoice holding the first run of a number is among the matching ones |
| InvoicesPage.InvoiceHit | searcher-front/src/app/modules/invoices/invoices/invoices.component.ts:374-418 | the pattern loop computes the page's decision for the listing |
| InvoicesPage.DedupImeis | searcher-front/src/app/modules/invoices/invoices/invoices.component.ts:343-350 | the `Map` loop computes `UniqueImeis` |
| InvoicesPage.VisitInvoice | searcher-front/src/app/modules/invoices/invoices/invoices.component.ts:420-441 | an invoice holding the IMEI pushes its entry and is added once to the matching invoices |
| InvoicesPage.SearchImei | searcher-front/src/app/modules/invoices/invoices/invoices.component.ts:358-442 | the invoice loop for one IMEI adds `FoundIn` and `MatchFor`, and `found` holds exactly when there was an entry |
| InvoicesPage.SearchAll | searcher-front/src/app/modules/invoices/invoices/invoices.component.ts:357-446 | the IMEI loop computes the entries, the numbers not found and the matching invoices |
| InvoicesPage.CountImeis | searcher-front/src/app/modules/invoices/invoices/invoices.component.ts:456-460 | the `imeiCounts` map holds, for every number, exactly how many found entries have it (absent means none) |
| InvoicesPage.MarkDuplicateEntries | searcher-front/src/app/modules/invoices/invoices/invoices.component.ts:456-465 | the counting map and the flag pass compute `MarkDuplicates`: each entry is flagged exactly when another entry has its number |
| InvoicesPage.InvoicesComponent.constructor | searcher-front/src/app/modules/invoices/invoices/invoices.component.ts:33-63 | the page starts empty, with 30 rows and no search |
| InvoicesPage.InvoicesComponent.LoadInvoices | searcher-front/src/app/modules/invoices/invoices/invoices.component.ts:74-82 | the page shows it is loading |
| InvoicesPage.InvoicesComponent.ReceiveInvoices | searcher-front/src/app/modules/invoices/invoices/invoices.component.ts:86-97 | the listing is replaced; with a filter the current page of the filtered listing is shown, without one the first `rows` invoices and their full count |
| InvoicesPage.InvoicesComponent.LoadFailed | searcher-front/src/app/modules/invoices/invoices/invoices.component.ts:99-104 | the listing is emptied |
| InvoicesPage.InvoicesComponent.RefreshInvoices | searcher-front/src/app/modules/invoices/invoices/invoices.component.ts:231-264 | an answered refresh replaces the listing as a load does; a failed one has no error handler, so `loading` stays true and the listing, total and flags are kept |
| InvoicesPage.InvoicesComponent.OnInvoiceTypeChange | searcher-front/src/app/modules/invoices/invoices/invoices.component.ts:135-142 | another listing: page 0, emptied, loading; the filter is kept |
| InvoicesPage.InvoicesComponent.OnStoreChange | searcher-front/src/app/modules/invoices/invoices/invoices.component.ts:144-151 | another store: page 0, emptied, loading; the filter is kept |
| InvoicesPage.InvoicesComponent.OnFilterChange | searcher-front/src/app/modules/invoices/invoices/invoices.component.ts:153-156 | the first page of the newly filtered listing, and its count |
| InvoicesPage.InvoicesComponent.FilterInvoicesLocal | searcher-front/src/app/modules/invoices/invoices/invoices.component.ts:158-229 | the total counts the filtered listing, and the rows shown are its current page |
| InvoicesPage.InvoicesComponent.LoadInvoicesLazy | searcher-front/src/app/modules/invoices/invoices/invoices.component.ts:266-270 | the page is `first / rows`, and its rows are shown |
| InvoicesPage.InvoicesComponent.OpenMassiveSearchModal | searcher-front/src/app/modules/invoices/invoices/invoices.component.ts:280-284 | an empty search form is shown |
| InvoicesPage.InvoicesComponent.CloseMassiveSearchModal | searcher-front/src/app/modules/invoices/invoices/invoices.component.ts:286-290 | the form is hidden and forgotten |
| InvoicesPage.InvoicesComponent.PerformMassiveSearch | searcher-front/src/app/modules/invoices/invoices/invoices.component.ts:292-468 | a blank text does nothing; otherwise the results are the mass search over the loaded invoices |
| InvoicesPage.InvoicesComponent.ApplyMassiveSearchFilter | searcher-front/src/app/modules/invoices/invoices/invoices.component.ts:470-477 | with results, the first page of the matching invoices and their count are shown and the form closes; without results nothing changes |
| InvoicesPage.InvoicesComponent.ClearMassiveSearchFilter | searcher-front/src/app/modules/invoices/invoices/invoices.component.ts:479-482 | back to the current page of the filtered listing, with the form closed |

## Left out

- HTTP itself (axios, authentication headers, URLs) is left out: the endpoint is the `Api` oracle.
  The credential URLs and keys are registered but not used to route requests.
- Logging, `setTimeout` sleeps and timers are left out. The retry delays are kept as values only. Their one observable effect is kept: a database full load repeats a request after its delay, while the loop waits on the batch, so the repetition reads the batch's last offset (`DbSync.StartBinding`).
- Concurrency is left out: fire-and-forget loads racing reads or each other, and interleaved awaits.
  The read paths return a flag saying that a background load starts, and the load is a separate call.
- Date parsing (`new Date`, `getTime`, `toISOString`) is left out.
  Timestamps stay upstream text compared as JavaScript strings, and "today" is a parameter.
- Upstream records keep only `id`, `datetime` and `date`; other fields are carried only where a search reads them.
- The page's regular expressions are left out. The IMEI runs they extract are a parameter.
  Pattern tests use `includes`, which the word-boundary test never extends.
- `goToAlegra` and `goToAlegraBills` (`window.open`) are left out, as are `ngOnInit` wiring and the HTTP client of the page.
- `res.data || []` on the page is left out: the data is always a list here.
- Sorting.SortBy: the relative order of records the comparator ranks equal is not stated, although `Array.prototype.sort` keeps their input order.
- InvoicesPage.InvoicesComponent.LoadInvoicesLazy: JavaScript's `first / rows` may be fractional, or infinite for 0 rows; the model uses whole-page division and needs at least one row.
- `MissingCredentials` is never produced: the registry always holds all four stores. Missing variables become absent fields.
- Database failures other than a rejected per-record invoice write are left out.
  A failing bulk save of bills, a failing `count`, and TypeORM's chunking of bulk saves are among them.
  `getSyncStatus`' insert race is modelled for bills only.
- Ids are integers; `parseInt` of an id and JavaScript prototype keys in lookups are left out.
- An envelope without `data` that the in-memory bills service appends to its cache has no id and no dates. `Upstream.EnvelopeElement` gives it id 0 and no dates; that service never compares its id.
- The controllers, the scheduled tasks and the database clean-up endpoints are not part of this model.
- Text.Lower: only the Basic Latin and Latin-1 capitals are lowered. Capitals of other scripts and one-to-many mappings such as U+0130 are kept. The quick filter therefore misses a match that depends on them.

## Findings

| source | as written | input that shows it | evidently intended | confidence | as-written member | corrected member |
|---|---|---|---|---|---|---|
| searcher-back/src/invoices/invoices.service.db.ts:470-490 | `ensureFullDataPersistence` saves, in `finally`, the status object it read before the load; that overwrites the total and `isFullyLoaded` the load saved | a row with `totalRecords = 0` and a probe reporting 120 records: the row ends at 0 (bills.service.db.ts:442-465 is the same) | keep the load's total and flag and clear `isSyncing` | not executed | DbSync.EnsureFullLosesTotal | DbSync.EnsureFullIntendedRecordsTotal |
| searcher-back/src/bills/bills.service.db.ts:297-328 | `updateBillsManually`'s `finally` saves the status read at the start over the `Math.max` total `fetchNewBills` saved | a row whose total equals the cached count and a refresh that inserts one bill: the total ends below the count | keep the recounted total and clear `isSyncing` | not executed | BillsDb.ManualUpdateLosesCount | BillsDb.ManualUpdateIntendedCounts |
| searcher-back/src/bills/bills.service.new.ts:211-219 | `continueLoadingInBackground` sets `fullyLoaded = true` without comparing the cache with the total (invoices.service.new.ts is the same) | a probe reporting 100 records, 30 cached, and every page request failing: fully loaded with 30 records | set `fullyLoaded` to whether the cache reached the total, as bills.service.ts:256-262 does | not executed | MemoryLoad.BackgroundClaimsComplete | MemoryLoad.BackgroundSettledPages |
| searcher-back/src/bills/bills.service.new.ts:427-448 | `updateBillsManually` sets `updating = true` and clears it only after `fetchNewBills` returns, with no `finally` (invoices.service.new.ts:420-441 is the same) | a refresh whose first `date_after` request fails: `updating` stays true until a later manual update succeeds | clear `updating` in a `finally`, as bills.service.ts:562-564 does | not executed | PerStoreCache.ManualUpdateStaysUpdating | PerStoreCache.ManualUpdateIntended |
| searcher-back/src/invoices/invoices.service.ts:225-239 | `updateInvoicesManually` has no `finally` either | a refresh whose first request fails: `getCachedInvoices` reports `updating` until a later manual update succeeds | clear `updating` in a `finally`, as `onModuleInit` does | not executed | InvoicesSingle.ManualUpdateStaysUpdating | InvoicesSingle.ManualUpdateIntended |
| searcher-front/src/app/modules/invoices/invoices/invoices.component.ts:379-417 | for purchases an annotation hit does not `break`, so each later pattern overwrites `hasImei` | a purchase whose annotation is "equipo 356789012345678" and whose items do not mention it: the last pattern "imei 356789012345678" is absent, so the IMEI is reported not found | stop at the first pattern found, as the sales branch does | not executed | InvoiceSearch.PurchaseAnnotationMissed | InvoiceSearch.PurchaseHit |
| searcher-back/src/invoices/invoices.service.db.ts:158-174 | `start` is declared once before the loop and read by every request closure; a request repeated after a 429 runs while the loop waits on its batch, so it asks for the batch's last page (searcher-back/src/bills/bills.service.db.ts:190-208 is the same) | 60 records, the first request for the page at 0 answered 429: the load writes record 31 twice and never record 1 | each repetition asks for its own page, with a `const start` per iteration | not executed | DbSync.SharedStartLosesPage | DbSync.PerIterationLoadWritesEveryPage |
